/** What a workflow's `notify` step puts on the wire (src/workflows/sdk.ts). */
module StepNotify {
  import opened Wrappers

  /** The `user` of a notify step: absent, an id (given plainly or as `{ id }`), or a list, which is refused. */
  datatype UserArg = NoUser | OneUser(id: string) | ManyUsers(ids: seq<string>)

  /** Values of `data` and `aiPrompts` are JSON texts here. */
  datatype NotifyArgs = NotifyArgs(segment: Option<string>, topic: Option<string>, user: UserArg, template: string,
                                   priority: Option<string>, channels: Option<seq<string>>,
                                   data: Option<map<string, string>>, aiPrompts: Option<map<string, string>>,
                                   fallback: Option<bool>, sendAt: Option<string>, campaign: Option<string>)

  datatype Target = ToSegment(segment: string) | ToTopic(topic: string) | ToUser(userId: string)

  /** The id an instance was triggered with; an empty one counts as none. */
  datatype Input = Input(userId: Option<string>)

  datatype Key = Key(instance: string, step: nat)

  /** `key` stands for the idempotency key and the instance id, which are published side by side. */
  datatype Requested = Requested(projectId: string, target: Target, templateId: string, priority: string,
                                 channels: Option<seq<string>>, data: map<string, string>,
                                 aiPrompts: Option<map<string, string>>, fallback: bool, scheduledAt: Option<string>,
                                 campaignId: Option<string>, key: Key)

  function Inherited(input: Input): (t: Option<Target>) {
    if input.userId.Some? && input.userId.value != "" then Some(ToUser(input.userId.value)) else None
  }

  /** `None` where the source throws. */
  function ResolveStepTarget(args: NotifyArgs, input: Input): (t: Option<Target>) {
    if args.segment.Some? then Some(ToSegment(args.segment.value))
    else if args.topic.Some? then Some(ToTopic(args.topic.value))
    else match args.user
      case ManyUsers(_) => None
      case OneUser(id) => Some(ToUser(id))
      case NoUser => Inherited(input)
  }

  function BuildStepNotifyPayload(args: NotifyArgs, input: Input, projectId: string, key: Key): (r: Option<Requested>) {
    var target := ResolveStepTarget(args, input);
    if target.None? then None
    else Some(Requested(projectId, target.value, args.template,
                        args.priority.UnwrapOr("normal"), args.channels, args.data.UnwrapOr(map[]), args.aiPrompts,
                        args.fallback.UnwrapOr(false), args.sendAt, args.campaign, key))
  }

  /** A step that names a target never looks at the instance: only a step naming none depends on who triggered it, and
    * it fails exactly when the instance names nobody either, or when it names a list of users. */
  lemma TargetFallsBackOnlyWhenUnnamed(args: NotifyArgs, input: Input, other: Input)
    ensures ResolveStepTarget(args, input) != ResolveStepTarget(args, other) ==>
              args.segment.None? && args.topic.None? && args.user.NoUser? && input.userId != other.userId
    ensures ResolveStepTarget(args, input).None? <==>
              args.segment.None? && args.topic.None? && (args.user.ManyUsers? || (args.user.NoUser? && Inherited(input).None?))
  {
  }

  /** Who a step is for: its segment before its topic before its user, and the instance's own user only for a step that
    * names none of them. */
  lemma TargetIsTheOneNamed(args: NotifyArgs, input: Input, x: string)
    ensures ResolveStepTarget(args, input) == Some(ToSegment(x)) <==> args.segment == Some(x)
    ensures ResolveStepTarget(args, input) == Some(ToTopic(x)) <==> args.segment.None? && args.topic == Some(x)
    ensures ResolveStepTarget(args, input) == Some(ToUser(x)) <==>
              args.segment.None? && args.topic.None? &&
              (args.user == OneUser(x) || (args.user.NoUser? && input.userId == Some(x) && x != ""))
  {
  }

  /** What goes on the wire is what the step says under the wire's names, with a default only for what it leaves out. */
  lemma PayloadSaysWhatTheStepSays(args: NotifyArgs, input: Input, projectId: string, key: Key)
    ensures var r := BuildStepNotifyPayload(args, input, projectId, key);
      && (r.Some? <==> ResolveStepTarget(args, input).Some?)
      && (r.Some? ==>
            && Some(r.value.target) == ResolveStepTarget(args, input)
            && r.value.projectId == projectId && r.value.key == key && r.value.templateId == args.template
            && r.value.scheduledAt == args.sendAt && r.value.campaignId == args.campaign
            && r.value.channels == args.channels && r.value.aiPrompts == args.aiPrompts
            && (if args.priority.Some? then args.priority == Some(r.value.priority) else r.value.priority == "normal")
            && (if args.data.Some? then args.data == Some(r.value.data) else r.value.data == map[])
            && (r.value.fallback <==> args.fallback == Some(true)))
  {
  }
}
