/** The bundle writer: spooled records first, its own after them on the same sequence
    (services/collector/internal/bundle/bundle.go). */
module Bundle {
  import opened Model
  import opened Spool

  /** The events of a bundle: the spooled records, one gap per finding, and a closing heartbeat,
      numbered on from the largest sequence present. */
  method WriteEvents(records: seq<Rec>, findings: seq<(string, string)>) returns (events: seq<Rec>)
    ensures |events| == |records| + |findings| + 1 && events[..|records|] == records
    ensures forall i :: 0 <= i < |findings| ==> events[|records| + i].gap == Some(findings[i].0) && events[|records| + i].body == findings[i].1
    ensures forall i, j :: 0 <= i < j < |events| && |records| <= j ==> events[i].sequence < events[j].sequence
    ensures UniqueSequences(records) ==> UniqueSequences(events)
    ensures Sequenced(records) ==> forall i :: 0 <= i < |events| ==> events[i].sequence == i + 1
  {
    var seq0: nat := 0;
    for i := 0 to |records|
      invariant forall j :: 0 <= j < i ==> records[j].sequence <= seq0
      invariant Sequenced(records) ==> seq0 == i
    {
      if records[i].sequence > seq0 { seq0 := records[i].sequence; }
    }
    events := records;
    var n := seq0;
    for i := 0 to |findings|
      invariant n == seq0 + i && |events| == |records| + i && events[..|records|] == records
      invariant forall j :: |records| <= j < |events| ==> events[j].sequence == seq0 + 1 + (j - |records|)
      invariant forall j :: 0 <= j < i ==> events[|records| + j].gap == Some(findings[j].0) && events[|records| + j].body == findings[j].1
    {
      n := n + 1;
      events := events + [Rec(findings[i].1, Some(findings[i].0), None, n)];
    }
    events := events + [Rec("collector.heartbeat", None, None, n + 1)];
    assert forall j :: 0 <= j < |records| ==> events[j] == records[j];
  }

  // ---------------------------------------------------------------- correlating Pod UIDs

  const SECOND := 1_000_000_000

  /** A Pod the inventory watch observed; times are in nanoseconds. */
  datatype Observed = Observed(uid: string, ns: string, name: string, account: string, created: int)

  datatype Target = Target(name: string, uid: Option<string>, account: Option<string>, correlated: bool)

  /** An audit record as far as correlation looks at it; `at` is missing when it does not parse. */
  datatype Audit = Audit(response: bool, verb: string, resource: string, ns: string, status: Option<int>, at: Option<int>, target: Target)

  /** A successful creation of, or exec into, a Pod whose UID the record does not carry. */
  predicate Unidentified(a: Audit) {
    && a.response && a.verb == "create" && (a.resource == "pods" || a.resource == "pods/exec")
    && a.status.Some? && 200 <= a.status.value < 300 && a.target.uid.None?
  }

  function Truncated(t: int): int { t - t % SECOND }

  /** Created around the request, or, for an exec, not after it. */
  predicate Matches(a: Audit, p: Observed, window: int) {
    && a.at.Some? && p.ns == a.ns && p.name == a.target.name
    && Truncated(p.created) <= a.at.value + SECOND
    && (a.resource == "pods" ==> Truncated(p.created) >= a.at.value - window)
  }

  predicate Identifiable(a: Audit) { a.at.Some? && a.ns != "" && a.target.name != "" }

  predicate OnlyMatch(a: Audit, pods: seq<Observed>, window: int, i: int) {
    0 <= i < |pods| && Matches(a, pods[i], window) && forall j :: 0 <= j < |pods| && Matches(a, pods[j], window) ==> j == i
  }

  function Identified(a: Audit, p: Observed): Audit {
    a.(target := Target(a.target.name, Some(p.uid), if a.resource == "pods" then Some(p.account) else a.target.account, true))
  }

  lemma NoneOrMany(a: Audit, pods: seq<Observed>, window: int, found: seq<nat>)
    requires |found| != 1 && forall k :: 0 <= k < |found| ==> found[k] < |pods| && Matches(a, pods[found[k]], window)
    requires forall k, l :: 0 <= k < l < |found| ==> found[k] < found[l]
    requires forall j :: 0 <= j < |pods| && Matches(a, pods[j], window) ==> j in found
    ensures !exists i :: OnlyMatch(a, pods, window, i)
  {
    hide Matches;
    if |found| >= 2 { assert found[0] < found[1]; }
  }

  /** Fills in the UID of the Pod meant, when exactly one observed Pod matches; otherwise a gap says
      so, and the record stays as it was: a UID is never guessed. */
  method Correlate(a: Audit, pods: seq<Observed>, window: int) returns (out: Audit, gap: bool)
    ensures !Unidentified(a) ==> out == a && !gap
    ensures gap ==> out == a
    ensures Unidentified(a) ==> (gap <==> !(Identifiable(a) && exists i :: OnlyMatch(a, pods, window, i)))
    ensures Unidentified(a) && !gap ==> exists i :: OnlyMatch(a, pods, window, i) && out == Identified(a, pods[i])
  {
    out, gap := a, false;
    if !Unidentified(a) { return; }
    if !Identifiable(a) {
      gap := true;
      return;
    }
    var found: seq<nat> := [];
    for i := 0 to |pods|
      invariant forall k :: 0 <= k < |found| ==> found[k] < i && Matches(a, pods[found[k]], window)
      invariant forall k, l :: 0 <= k < l < |found| ==> found[k] < found[l]
      invariant forall j :: 0 <= j < i && Matches(a, pods[j], window) ==> j in found
    {
      if Matches(a, pods[i], window) { found := found + [i]; }
    }
    if |found| != 1 {
      gap := true;
      NoneOrMany(a, pods, window, found);
      return;
    }
    var p := pods[found[0]];
    assert OnlyMatch(a, pods, window, found[0]);
    out := Identified(a, p);
  }
}
