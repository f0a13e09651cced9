/** Rollout command ids, the idempotency keys under which a rollout's commands are queued. */
module CommandIds {
  import opened Text
  import opened CommandQueue

  datatype Suffix = Apply | Rollback

  datatype CommandKey = CommandKey(stage: nat, cluster: string, suffix: Suffix)

  function SuffixText(suffix: Suffix): string {
    match suffix
    case Apply => "apply"
    case Rollback => "rollback"
  }

  function Tail(key: CommandKey): string {
    key.cluster + ":" + SuffixText(key.suffix)
  }

  /** The text of a command id: rollout:<rollout>:<stage>:<cluster>:<suffix>. */
  function CommandId(rollout: string, key: CommandKey): string {
    "rollout:" + rollout + ":" + (Decimal(key.stage) + ":" + Tail(key))
  }

  /** Within one rollout no two commands share an id, whatever characters cluster ids hold. */
  lemma CommandIdsAreInjective(rollout: string, a: CommandKey, b: CommandKey)
    requires CommandId(rollout, a) == CommandId(rollout, b)
    ensures a == b
  {
    CancelPrefix("rollout:" + rollout + ":", Decimal(a.stage) + ":" + Tail(a), Decimal(b.stage) + ":" + Tail(b));
    DecimalRoundTrip(a.stage);
    DecimalRoundTrip(b.stage);
    SplitAt(':', Decimal(a.stage), Tail(a), Decimal(b.stage), Tail(b));
    SameTail(a, b);
  }

  lemma SameTail(a: CommandKey, b: CommandKey)
    requires Tail(a) == Tail(b)
    ensures a.cluster == b.cluster && a.suffix == b.suffix
  {
    assert Tail(a)[|Tail(a)| - 1] == if a.suffix.Apply? then 'y' else 'k';
    assert Tail(b)[|Tail(b)| - 1] == if b.suffix.Apply? then 'y' else 'k';
    var n := |Tail(a)| - |":" + SuffixText(a.suffix)|;
    assert a.cluster == Tail(a)[..n] == Tail(b)[..n] == b.cluster;
  }

  // ----- Payloads

  /** How rollout payloads are written: as the service does, or as the queue asks for. */
  datatype Encoding = PlainJson | TypedJson

  /** What every command of a rollout says about it. */
  datatype About = About(rollout: string, kind: string, targetRef: string, encoding: Encoding)

  /** The desired state a command asks for. */
  function DesiredState(about: About, version: string): Payload {
    var members := map["rolloutId" := about.rollout, "kind" := about.kind, "targetRef" := about.targetRef,
                       "desiredVersion" := version];
    match about.encoding
    case PlainJson => Untyped(members)
    case TypedJson => Typed("type.googleapis.com/inari.fleet.RolloutApply", true, members)
  }

  /** The stream can read a rollout's payloads exactly if they are written with their type; and a payload
      tells which version it asks for. */
  lemma DesiredStateIsReadableExactly(about: About, version: string, other: string)
    ensures Readable(DesiredState(about, version)) <==> about.encoding.TypedJson?
    ensures DesiredState(about, version) == DesiredState(about, other) ==> version == other
  {
    var a, b := DesiredState(about, version).members, DesiredState(about, other).members;
    assert "kind" in a && a["desiredVersion"] == version && b["desiredVersion"] == other;
  }

  /** The ids spelled out. */
  lemma CommandIdsSpelledOut(rollout: string, stage: nat, cluster: string)
    ensures CommandId(rollout, CommandKey(stage, cluster, Apply)) == "rollout:" + rollout + ":" + Decimal(stage) + ":" + cluster + ":apply"
    ensures CommandId(rollout, CommandKey(stage, cluster, Rollback)) == "rollout:" + rollout + ":" + Decimal(stage) + ":" + cluster + ":rollback"
  {
  }
}
