/** Rollout stage definitions, their validation at creation and the concurrency specification
    ("3" or "25%") of a stage. */
module Stages {
  import opened Wrappers
  import opened Text

  datatype GateKind = Wait(seconds: int) | Approval | UnknownGate(name: string)

  datatype Stage = Stage(clusterSetIds: seq<string>, maxConcurrency: string,
                         beforeGate: Option<GateKind>, afterGate: Option<GateKind>)

  datatype Invalid = NoConcurrency | BadPercent | BadCount | NoStages | NoClusterSets(at: nat)
                   | BadConcurrency(at: nat, cause: Invalid) | BadWait(at: nat) | BadGateType(at: nat)

  predicate IsPercentage(spec: string) {
    var s := TrimSpace(spec);
    s != "" && s[|s| - 1] == '%'
  }

  /** The number written in a specification, before any clamping. */
  function Written(spec: string): Option<int> {
    var s := TrimSpace(spec);
    if s != "" && s[|s| - 1] == '%' then Atoi(s[..|s| - 1]) else Atoi(s)
  }

  function ParseMaxConcurrency(spec: string, total: int): Result<int, Invalid> {
    if total <= 0 then Ok(0)
    else if TrimSpace(spec) == "" then Err(NoConcurrency)
    else if IsPercentage(spec) then
      match Written(spec)
      case None => Err(BadPercent)
      case Some(pct) =>
        if pct <= 0 || pct > 100 then Err(BadPercent)
        else
          var n := (total * pct + 99) / 100;
          Ok(if n < 1 then 1 else n)
    else
      match Written(spec)
      case None => Err(BadCount)
      case Some(n) => if n <= 0 then Err(BadCount) else Ok(if n > total then total else n)
  }

  /** What creation checks with a total of 100 decides every later total: acceptance does not
      depend on the total, and the result is always a usable number of slots. */
  lemma AcceptedForEveryTotal(spec: string, total: int)
    requires total > 0
    ensures ParseMaxConcurrency(spec, total).Ok? <==> ParseMaxConcurrency(spec, 100).Ok?
    ensures ParseMaxConcurrency(spec, total).Ok? ==> 1 <= ParseMaxConcurrency(spec, total).value <= total
  {
    if IsPercentage(spec) && Written(spec).Some? && 0 < Written(spec).value <= 100 {
      PercentBounds(total, Written(spec).value);
    }
  }

  /** A percentage is rounded up, never down: the result is the least number of clusters that
      makes up at least that share of the total. */
  lemma PercentIsCeiling(spec: string, total: int)
    requires total > 0 && IsPercentage(spec) && ParseMaxConcurrency(spec, total).Ok?
    ensures Written(spec).Some?
    ensures var n, pct := ParseMaxConcurrency(spec, total).value, Written(spec).value;
            100 * (n - 1) < total * pct <= 100 * n
  {
    PercentBounds(total, Written(spec).value);
  }

  lemma PercentBounds(total: int, pct: int)
    requires total > 0 && 0 < pct <= 100
    ensures 0 < total * pct <= 100 * total
    ensures 1 <= (total * pct + 99) / 100 <= total
  {
    assert total * pct <= total * 100;
  }

  function GateError(at: nat, gate: Option<GateKind>): Option<Invalid> {
    match gate
    case None => None
    case Some(Wait(seconds)) => if seconds <= 0 then Some(BadWait(at)) else None
    case Some(Approval) => None
    case Some(UnknownGate(_)) => Some(BadGateType(at))
  }

  predicate GateOk(gate: Option<GateKind>) {
    gate.None? || gate.value.Approval? || (gate.value.Wait? && gate.value.seconds > 0)
  }

  predicate StageOk(st: Stage) {
    st.clusterSetIds != [] && ParseMaxConcurrency(st.maxConcurrency, 100).Ok?
    && GateOk(st.beforeGate) && GateOk(st.afterGate)
  }

  /** The check made before a rollout is stored: it accepts exactly the non-empty lists of
      well-formed stages and otherwise blames the first stage that is not. */
  method ValidateStages(stages: seq<Stage>) returns (err: Option<Invalid>)
    ensures err.None? <==> stages != [] && forall i | 0 <= i < |stages| :: StageOk(stages[i])
    ensures err.Some? && stages != [] ==>
              err.value.NoClusterSets? || err.value.BadConcurrency? || err.value.BadWait? || err.value.BadGateType?
    ensures err.Some? && stages != [] ==>
              err.value.at < |stages| && !StageOk(stages[err.value.at])
              && forall i | 0 <= i < err.value.at :: StageOk(stages[i])
  {
    if |stages| == 0 {
      return Some(NoStages);
    }
    for i := 0 to |stages|
      invariant forall j | 0 <= j < i :: StageOk(stages[j])
    {
      if |stages[i].clusterSetIds| == 0 {
        return Some(NoClusterSets(i));
      }
      var parsed := ParseMaxConcurrency(stages[i].maxConcurrency, 100);
      if parsed.Err? {
        return Some(BadConcurrency(i, parsed.error));
      }
      var gates := [stages[i].beforeGate, stages[i].afterGate];
      for g := 0 to |gates|
        invariant forall j | 0 <= j < g :: GateOk(gates[j])
      {
        err := GateError(i, gates[g]);
        if err.Some? {
          return;
        }
      }
      assert GateOk(gates[0]) && GateOk(gates[1]);
    }
    return None;
  }

  // ----- Specifications written out

  lemma DigitsAreNoSpaces(n: nat)
    ensures Decimal(n) != "" && TrimSpace(Decimal(n)) == Decimal(n) && Decimal(n)[|Decimal(n)| - 1] != '%'
  {
    DecimalRoundTrip(n);
    var s := Decimal(n);
    assert IsDigit(s[0]) && IsDigit(s[|s| - 1]);
  }

  /** A plain number asks for that many clusters at a time, or for all where there are fewer. */
  lemma CountIsClamped(n: nat, total: int)
    requires total > 0
    ensures ParseMaxConcurrency(Decimal(n), total) ==
            if n == 0 || n > MAX_INT64 then Err(BadCount) else Ok(if n <= total then n else total)
  {
    DigitsAreNoSpaces(n);
    DecimalRoundTrip(n);
    assert IsDigit(Decimal(n)[0]);
  }

  /** A percentage from 1 to 100 asks for the least number of clusters that makes up that share. */
  lemma PercentageIsRoundedUp(pct: nat, total: int)
    requires total > 0
    ensures var parsed := ParseMaxConcurrency(Decimal(pct) + "%", total);
            if 1 <= pct <= 100 then parsed.Ok? && 100 * (parsed.value - 1) < pct * total <= 100 * parsed.value
            else parsed == Err(BadPercent)
  {
    DecimalRoundTrip(pct);
    var digits, spec := Decimal(pct), Decimal(pct) + "%";
    assert IsDigit(digits[0]) && spec[0] == digits[0] && spec[|spec| - 1] == '%' && spec[..|spec| - 1] == digits;
    assert TrimSpace(spec) == spec;
    if 1 <= pct <= 100 {
      AtoiReadsDecimal(pct);
      PercentBounds(total, pct);
      PercentIsCeiling(spec, total);
    }
  }
}
