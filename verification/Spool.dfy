/** The collector's evidence spool: a bounded append-only file of one record per line, reopened
    after crashes at any byte (services/collector/internal/spool/spool.go). */
module Spool {
  import opened Model

  const RESERVED_RECORDS := 2
  const RESERVED_BYTES := 4096
  const GAP_BYTES := 512
  const MAX_LINE_BYTES := 65536

  /** `gap` is the gap kind of a `collector.gap` record. */
  datatype Rec = Rec(body: string, gap: Option<string>, dedup: Option<string>, sequence: nat)

  /** The line format: one line per record, read back exactly; `tainted` lines are refused. */
  datatype Codec = Codec(encode: Rec -> string, decode: string -> Option<Rec>, tainted: string -> bool)
  {
    ghost predicate Valid() { forall r :: '\n' !in encode(r) && decode(encode(r)) == Some(r) }
  }

  datatype Options = Options(codec: Codec, maxBytes: nat, maxRecords: nat)
  {
    predicate Sufficient() { maxBytes > RESERVED_BYTES && maxRecords > RESERVED_RECORDS }
  }

  // ---------------------------------------------------------------- the file

  function Line(c: Codec, r: Rec): string { c.encode(r) + ['\n'] }

  function Lines(c: Codec, rs: seq<Rec>): string {
    if rs == [] then [] else Lines(c, rs[..|rs| - 1]) + Line(c, rs[|rs| - 1])
  }

  lemma {:induction false} LinesSplit(c: Codec, rs: seq<Rec>, k: nat)
    requires k <= |rs|
    ensures Lines(c, rs) == Lines(c, rs[..k]) + Lines(c, rs[k..])
    ensures |Lines(c, rs[..k])| <= |Lines(c, rs)|
  {
    if k == |rs| {
      assert rs[..k] == rs && rs[k..] == [];
    } else {
      LinesSplit(c, rs[..|rs| - 1], k);
      assert rs[..|rs| - 1][..k] == rs[..k] && rs[..|rs| - 1][k..] == rs[k..][..|rs[k..]| - 1];
    }
  }

  lemma LinesCons(c: Codec, rs: seq<Rec>, k: nat)
    requires k < |rs|
    ensures Lines(c, rs[k..]) == Line(c, rs[k]) + Lines(c, rs[k + 1..])
  {
    LinesSplit(c, rs[k..], 1);
    assert rs[k..][..1] == [rs[k]] && rs[k..][1..] == rs[k + 1..];
    assert [rs[k]][..0] == [];
    assert Lines(c, [rs[k]]) == [] + Line(c, rs[k]);
  }

  function IndexOf(s: string, ch: char): (i: int)
    ensures -1 <= i < |s| && (i >= 0 ==> s[i] == ch)
    ensures forall j :: 0 <= j < (if i < 0 then |s| else i) ==> s[j] != ch
  {
    if s == [] then -1
    else if s[0] == ch then 0
    else
      var r := IndexOf(s[1..], ch);
      if r < 0 then -1 else r + 1
  }

  // ---------------------------------------------------------------- which records survive a crash

  /** How many whole lines of `rs` lie within the first `k` bytes of the file. */
  function Whole(c: Codec, rs: seq<Rec>, k: nat): (m: nat)
    ensures m <= |rs|
    ensures |Lines(c, rs[..m])| <= k
    ensures m < |rs| ==> k < |Lines(c, rs[..m + 1])|
  {
    if |Lines(c, rs)| <= k then assert rs[..|rs|] == rs; |rs|
    else
      assert rs[..|rs|] == rs;
      var init := rs[..|rs| - 1];
      var m := Whole(c, init, k);
      assert init[..m] == rs[..m];
      assert m < |init| ==> init[..m + 1] == rs[..m + 1];
      m
  }

  /** From record `m` on, the file reads its line, then the rest. */
  lemma FromRecord(c: Codec, rs: seq<Rec>, m: nat)
    requires m < |rs|
    ensures Lines(c, rs) == Lines(c, rs[..m]) + (Line(c, rs[m]) + Lines(c, rs[m + 1..]))
    ensures |Lines(c, rs[..m + 1])| == |Lines(c, rs[..m])| + |Line(c, rs[m])|
  {
    LinesSplit(c, rs, m);
    LinesCons(c, rs, m);
    PrefixLines(c, rs, m);
  }

  lemma Slice(a: string, b: string, k: nat)
    requires |a| <= k <= |a + b|
    ensures (a + b)[..k][|a|..] == b[..k - |a|]
  {
  }

  /** At the end of the whole lines the parser finds no newline any more. */
  lemma TornTail(c: Codec, rs: seq<Rec>, k: nat, offset: nat)
    requires c.Valid() && k <= |Lines(c, rs)| && offset == |Lines(c, rs[..Whole(c, rs, k)])|
    ensures '\n' !in Lines(c, rs)[..k][offset..]
  {
    hide Lines;
    var m := Whole(c, rs, k);
    if m < |rs| {
      FromRecord(c, rs, m);
      var line, rest := Line(c, rs[m]), Lines(c, rs[m + 1..]);
      Slice(Lines(c, rs[..m]), line + rest, k);
      assert (line + rest)[..k - offset] == c.encode(rs[m])[..k - offset];
    } else {
      assert rs[..m] == rs;
    }
  }

  lemma FirstNewline(text: string, tail: string)
    requires '\n' !in text
    ensures IndexOf(text + ['\n'] + tail, '\n') == |text|
  {
    var s := text + ['\n'] + tail;
    assert s[|text|] == '\n';
    assert forall j :: 0 <= j < |text| ==> s[j] == text[j];
  }

  /** Before that, the next newline ends exactly the next record's line. */
  lemma NextLine(c: Codec, rs: seq<Rec>, k: nat, m: nat, offset: nat)
    requires c.Valid() && k <= |Lines(c, rs)| && m < Whole(c, rs, k) && offset == |Lines(c, rs[..m])|
    ensures offset <= k
    ensures var rest := Lines(c, rs)[..k][offset..]; var nl := IndexOf(rest, '\n');
      && nl >= 0 && rest[..nl] == c.encode(rs[m])
      && offset + nl + 1 == |Lines(c, rs[..m + 1])|
  {
    hide Lines;
    FromRecord(c, rs, m);
    WholeWithin(c, rs, k, m + 1);
    var line, tail := Line(c, rs[m]), Lines(c, rs[m + 1..]);
    Slice(Lines(c, rs[..m]), line + tail, k);
    var rest := Lines(c, rs)[..k][offset..];
    var cut := tail[..k - offset - |line|];
    assert (line + tail)[..k - offset] == c.encode(rs[m]) + ['\n'] + cut;
    FirstNewline(c.encode(rs[m]), cut);
  }

  lemma PrefixLines(c: Codec, rs: seq<Rec>, m: nat)
    requires m < |rs|
    ensures |Lines(c, rs[..m + 1])| == |Lines(c, rs[..m])| + |Line(c, rs[m])|
  {
    assert rs[..m + 1][..m] == rs[..m];
  }

  lemma {:induction false} WholeWithin(c: Codec, rs: seq<Rec>, k: nat, m: nat)
    requires m <= Whole(c, rs, k)
    ensures |Lines(c, rs[..m])| <= k
  {
    var w := Whole(c, rs, k);
    LinesSplit(c, rs[..w], m);
    assert rs[..w][..m] == rs[..m];
  }

  // ---------------------------------------------------------------- the invariant over records

  predicate Gap(r: Rec) { r.gap.Some? }

  predicate NoGaps(rs: seq<Rec>) { forall i :: 0 <= i < |rs| ==> !Gap(rs[i]) }

  /** Sequences run 1, 2, 3 and so on; a dedup key is used once. */
  predicate Sequenced(rs: seq<Rec>) {
    && (forall i :: 0 <= i < |rs| ==> rs[i].sequence == i + 1)
    && (forall i, j :: 0 <= i < j < |rs| && rs[i].dedup.Some? ==> rs[i].dedup != rs[j].dedup)
  }

  /** Only gap records use the reserve, and before the first gap there is room to write one. */
  predicate Reserved(o: Options, rs: seq<Rec>) {
    && |rs| <= o.maxRecords
    && (forall i :: 0 <= i < |rs| && o.maxRecords - RESERVED_RECORDS <= i ==> Gap(rs[i]))
  }

  /** Each line leaves room for a gap record's line within the reserved bytes. */
  predicate Short(c: Codec, rs: seq<Rec>) { forall i :: 0 <= i < |rs| ==> |Line(c, rs[i])| <= RESERVED_BYTES - GAP_BYTES }

  /** While every line is short, a file without gaps leaves room for one. */
  predicate Roomy(o: Options, rs: seq<Rec>) {
    NoGaps(rs) && Short(o.codec, rs) ==> |rs| <= o.maxRecords - RESERVED_RECORDS && |Lines(o.codec, rs)| < o.maxBytes - GAP_BYTES
  }

  ghost predicate RoomyThroughout(o: Options, rs: seq<Rec>) { forall k :: 0 <= k <= |rs| ==> Roomy(o, rs[..k]) }

  function Keys(rs: seq<Rec>): set<string> {
    set i | 0 <= i < |rs| && rs[i].dedup.Some? :: rs[i].dedup.value
  }

  lemma KeysPlus(rs: seq<Rec>, r: Rec)
    ensures Keys(rs + [r]) == Keys(rs) + if r.dedup.Some? then {r.dedup.value} else {}
  {
    var all := rs + [r];
    assert all[|rs|] == r;
    forall k | k in Keys(rs)
      ensures k in Keys(all)
    {
      var i :| 0 <= i < |rs| && rs[i].dedup.Some? && rs[i].dedup.value == k;
      assert all[i] == rs[i];
    }
    if r.dedup.Some? { assert all[|rs|].dedup.value in Keys(all); }
  }

  lemma SequencedPrefix(rs: seq<Rec>, k: nat)
    requires Sequenced(rs) && k <= |rs|
    ensures Sequenced(rs[..k])
  {
  }

  lemma ReservedPrefix(o: Options, rs: seq<Rec>, k: nat)
    requires Reserved(o, rs) && k <= |rs|
    ensures Reserved(o, rs[..k])
  {
  }

  lemma RoomyPrefix(o: Options, rs: seq<Rec>, k: nat)
    requires RoomyThroughout(o, rs) && k <= |rs|
    ensures RoomyThroughout(o, rs[..k])
  {
    forall j | 0 <= j <= k
      ensures Roomy(o, rs[..k][..j])
    {
      assert rs[..k][..j] == rs[..j];
    }
  }

  /** A record written outside the reserve, or a gap, keeps the room. */
  lemma RoomyPlus(o: Options, rs: seq<Rec>, r: Rec)
    requires o.Sufficient() && RoomyThroughout(o, rs)
    requires !Gap(r) ==> |rs| < o.maxRecords - RESERVED_RECORDS && |Lines(o.codec, rs)| < o.maxBytes - RESERVED_BYTES
    ensures RoomyThroughout(o, rs + [r])
  {
    assert (rs + [r])[|rs|] == r && (rs + [r])[..|rs|] == rs;
    assert Roomy(o, rs + [r]);
    forall j | 0 <= j <= |rs| + 1
      ensures Roomy(o, (rs + [r])[..j])
    {
      if j <= |rs| { assert (rs + [r])[..j] == rs[..j]; } else { assert (rs + [r])[..j] == rs + [r]; }
    }
  }

  // ---------------------------------------------------------------- the spool

  predicate GapAdded(before: seq<Rec>, now: seq<Rec>) {
    |now| == |before| + 1 && now[..|before|] == before && Gap(now[|before|])
  }

  /** The line of the record is too long, or holds what must not be spooled. */
  predicate Rejected(c: Codec, r: Rec) {
    |c.encode(r)| + 1 > MAX_LINE_BYTES || c.tainted(c.encode(r))
  }

  datatype AppendResult = Appended(sequence: nat) | Duplicate | Overflow | Refused

  class Spool {
    const opt: Options
    var file: string
    var records: seq<Rec>
    var seen: set<string>
    var sequence: nat
    var dropped: nat
    var overflow: bool
    var summarized: bool
    ghost var silenced: bool  // an overflow gap was refused as a record

    ghost predicate Valid()
      reads this
    {
      && opt.Sufficient() && opt.codec.Valid()
      && file == Lines(opt.codec, records) && seen == Keys(records) && sequence == |records|
      && Sequenced(records) && Reserved(opt, records) && RoomyThroughout(opt, records)
      && (silenced ==> overflow) && (overflow && !silenced && Short(opt.codec, records) ==> !NoGaps(records))
    }

    constructor (opt: Options)
      requires opt.Sufficient() && opt.codec.Valid()
      ensures Valid() && this.opt == opt && records == [] && !overflow && dropped == 0 && !summarized && !silenced
    {
      this.opt := opt;
      file, records, seen, sequence, dropped, overflow, summarized, silenced := [], [], {}, 0, 0, false, false, false;
      new;
      EmptyRoomy(opt);
    }

    /** Whether one more record would eat into the reserve, of which `use` records may be used. */
    predicate Full(use: nat)
      reads this
    {
      || |records| as int >= opt.maxRecords as int - RESERVED_RECORDS + use
      || |file| as int >= (if use > 0 then opt.maxBytes - GAP_BYTES else opt.maxBytes - RESERVED_BYTES)
    }

    /** Numbers, checks and writes one record. */
    method WriteLocked(body: string, gap: Option<string>, dedup: Option<string>) returns (written: bool)
      requires Valid() && |records| < opt.maxRecords
      requires gap.None? ==> |records| < opt.maxRecords - RESERVED_RECORDS && |file| < opt.maxBytes - RESERVED_BYTES
      requires dedup.Some? ==> dedup.value !in seen
      modifies this`file, this`records, this`seen, this`sequence
      ensures Valid()
      ensures written <==> !Rejects(Rec(body, gap, dedup, old(sequence) + 1))
      ensures records == old(records) + if written then [Rec(body, gap, dedup, old(sequence) + 1)] else []
    {
      hide Lines, Sequenced, Reserved, RoomyThroughout, NoGaps, Short, Keys;
      var r := Rec(body, gap, dedup, sequence + 1);
      var line := opt.codec.encode(r);
      written := |line| + 1 <= MAX_LINE_BYTES && !opt.codec.tainted(line);
      if written {
        KeysPlus(records, r);
        NewKeyLast(records, r);
        RoomyPlus(opt, records, r);
        StillGaps(opt.codec, records, r);
        WrittenReserved(opt, records, r);
        LinesPlus(opt.codec, records, r);
        file := file + (line + ['\n']);
        records := records + [r];
        sequence := sequence + 1;
        if dedup.Some? { seen := seen + {dedup.value}; }
      }
    }

    predicate Rejects(r: Rec) { Rejected(opt.codec, r) }

    /** Writes an explicit gap record, into the reserve if need be. */
    method GapLocked(kind: string, reason: string) returns (written: bool)
      requires Valid()
      modifies this`file, this`records, this`seen, this`sequence, this`dropped
      ensures Valid() && (written <==> !old(Full(RESERVED_RECORDS)) && !Rejects(Rec(reason, Some(kind), None, old(sequence) + 1)))
      ensures records == old(records) + (if written then [Rec(reason, Some(kind), None, old(sequence) + 1)] else []) && dropped >= old(dropped)
    {
      if Full(RESERVED_RECORDS) {
        dropped := dropped + 1;
        return false;
      }
      written := WriteLocked(reason, Some(kind), None);
    }

    /** Starts an overflow episode with a gap record; without room for one, there already is a gap. */
    method Alarm() returns (r: AppendResult)
      requires Valid() && Full(0) && !overflow
      modifies this
      ensures Valid() && (r.Overflow? || r.Refused?) && overflow && dropped >= old(dropped)
      ensures records == old(records) || GapAdded(old(records), records)
      ensures r.Overflow? ==> old(Full(RESERVED_RECORDS)) || GapAdded(old(records), records)
      ensures r.Refused? <==> silenced && !old(silenced)
    {
      hide Lines, Sequenced, Reserved, RoomyThroughout, Keys, NoGaps, Short, Codec.Valid;
      var full := Full(RESERVED_RECORDS);
      ghost var before := records;
      if full && Short(opt.codec, records) { FullHasGap(opt, records); }
      var written := GapLocked("spool-overflow", "local spool reached its limit; subsequent evidence is dropped");
      if written { GapIsThere(before, records); } else { assert records == before; }
      if !written && !full { silenced := true; }
      overflow := true;
      r := if !written && !full then Refused else Overflow;
    }

    /** A full spool drops a record and, once per episode, says so in a gap record. */
    method Drop() returns (r: AppendResult)
      requires Valid() && Full(0)
      modifies this
      ensures Valid() && (r.Overflow? || r.Refused?) && overflow && dropped > old(dropped)
      ensures records == old(records) || GapAdded(old(records), records)
      ensures r.Overflow? && !old(overflow) ==> old(Full(RESERVED_RECORDS)) || GapAdded(old(records), records)
      ensures old(overflow) ==> records == old(records) && r.Overflow?
      ensures r.Overflow? && !silenced && Short(opt.codec, records) ==> !NoGaps(records)
      ensures r.Refused? <==> silenced && !old(silenced)
    {
      hide Lines, Sequenced, Reserved, RoomyThroughout, Keys, NoGaps, Short, Codec.Valid, GapAdded;
      dropped := dropped + 1;
      r := Overflow;
      if !overflow { r := Alarm(); }
    }

    /** Spools one record unless its key was seen or the spool is full. */
    method Append(body: string, gap: Option<string>, key: string) returns (r: AppendResult)
      requires Valid()
      modifies this
      ensures Valid()
      ensures r.Duplicate? <==> key != "" && key in old(Keys(records))
      ensures r.Duplicate? ==> records == old(records)
      ensures r.Appended? ==> !old(Full(0)) && r.sequence == |records|
      ensures r.Appended? ==> records == old(records) + [Rec(body, gap, if key == "" then None else Some(key), r.sequence)]
      ensures r.Overflow? ==> old(Full(0)) && dropped > old(dropped)
      ensures !r.Appended? ==> records == old(records) || GapAdded(old(records), records)
      ensures r.Refused? && !old(Full(0)) ==> records == old(records)
      ensures r.Overflow? && !silenced && Short(opt.codec, records) ==> !NoGaps(records)
      ensures silenced && !old(silenced) ==> r.Refused? && old(Full(0))
    {
      hide Lines, Sequenced, Reserved, RoomyThroughout, NoGaps, Short;
      if key != "" && key in seen { return Duplicate; }
      if Full(0) {
        r := Drop();
        return;
      }
      var written := WriteLocked(body, gap, if key == "" then None else Some(key));
      r := if written then Appended(sequence) else Refused;
    }

    /** Adopts the whole lines of an existing file and returns how many bytes they take. */
    method ParseExisting(data: string, ghost was: seq<Rec>, ghost k: nat) returns (offset: nat)
      requires Valid() && records == [] && k <= |Lines(opt.codec, was)| && data == Lines(opt.codec, was)[..k]
      requires Sequenced(was) && Reserved(opt, was) && RoomyThroughout(opt, was) && !overflow
      modifies this`file, this`records, this`seen, this`sequence
      ensures Valid() && records == was[..Whole(opt.codec, was, k)] && offset == |file| && data[..offset] == file
    {
      hide Whole, Lines, IndexOf, Keys, Sequenced, Reserved, RoomyThroughout;
      offset := 0;
      ghost var m := 0;
      NoLines(opt.codec, was);
      while offset < |data|
        invariant m <= Whole(opt.codec, was, k) <= |was| && records == was[..m] && offset == |Lines(opt.codec, was[..m])| <= |data|
        invariant file == Lines(opt.codec, was[..m]) && seen == Keys(records) && sequence == m
        decreases |data| - offset
      {
        var nl := IndexOf(data[offset..], '\n');
        if m < Whole(opt.codec, was, k) { NextAdopted(opt.codec, was, k, m, offset); } else { TornTail(opt.codec, was, k, offset); }
        if nl < 0 { break; }
        var line := data[offset..offset + nl];
        assert line == data[offset..][..nl];
        var rec := opt.codec.decode(line);
        if rec.None? { break; }
        records := records + [rec.value];
        file := file + line + ['\n'];
        if rec.value.sequence > sequence { sequence := rec.value.sequence; }
        if rec.value.dedup.Some? { seen := seen + {rec.value.dedup.value}; }
        offset := offset + nl + 1;
        m := m + 1;
      }
      AllWhole(opt.codec, was, k, m, offset);
      SequencedPrefix(was, m);
      ReservedPrefix(opt, was, m);
      RoomyPrefix(opt, was, m);
      FilePrefix(opt.codec, was, k, m);
    }

    /** Records in sequence order without bookkeeping, after a summary gap if any were dropped. */
    method Records() returns (out: seq<Rec>)
      requires Valid()
      modifies this
      ensures Valid() && old(records) <= records && |out| == |records|
      ensures forall i :: 0 <= i < |out| ==> out[i] == records[i].(dedup := None) && out[i].sequence == i + 1
      ensures |records| <= old(|records|) + 1 && (old(dropped) == 0 || old(summarized) ==> records == old(records))
      ensures forall i :: old(|records|) <= i < |records| ==> Gap(records[i])
    {
      hide Lines, Reserved, RoomyThroughout, NoGaps, Short, Keys;
      if dropped > 0 && !summarized {
        summarized := true;
        var _ := GapLocked("spool-overflow-summary", "evidence records were dropped because the local spool was full");
      }
      out := [];
      for i := 0 to |records|
        invariant |out| == i && forall j :: 0 <= j < i ==> out[j] == records[j].(dedup := None)
      {
        out := out + [records[i].(dedup := None)];
      }
    }
  }

  lemma NoLines(c: Codec, rs: seq<Rec>)
    ensures Lines(c, rs[..0]) == [] && Keys(rs[..0]) == {} && Keys([]) == {} && rs[..0] == []
  {
  }

  /** What adopting the next whole line does. */
  lemma NextAdopted(c: Codec, rs: seq<Rec>, k: nat, m: nat, offset: nat)
    requires c.Valid() && k <= |Lines(c, rs)| && m < Whole(c, rs, k) && offset == |Lines(c, rs[..m])| && Sequenced(rs)
    ensures offset <= k
    ensures var rest := Lines(c, rs)[..k][offset..]; var nl := IndexOf(rest, '\n');
      && nl >= 0 && rest[..nl] == c.encode(rs[m]) && c.decode(rest[..nl]) == Some(rs[m]) && offset + nl + 1 == |Lines(c, rs[..m + 1])| <= k
      && Lines(c, rs[..m + 1]) == Lines(c, rs[..m]) + rest[..nl] + ['\n']
    ensures rs[..m + 1] == rs[..m] + [rs[m]] && rs[m].sequence == m + 1
    ensures Keys(rs[..m + 1]) == Keys(rs[..m]) + if rs[m].dedup.Some? then {rs[m].dedup.value} else {}
  {
    hide IndexOf, Whole, Keys;
    NextLine(c, rs, k, m, offset);
    WholeWithin(c, rs, k, m + 1);
    assert rs[..m + 1][..m] == rs[..m];
    assert rs[..m + 1] == rs[..m] + [rs[m]];
    KeysPlus(rs[..m], rs[m]);
  }

  lemma EmptyRoomy(o: Options)
    requires o.Sufficient()
    ensures RoomyThroughout(o, [])
  {
    var none: seq<Rec> := [];
    assert none[..0] == none;
  }

  lemma StillGaps(c: Codec, rs: seq<Rec>, r: Rec)
    ensures !NoGaps(rs) ==> !NoGaps(rs + [r])
    ensures Short(c, rs + [r]) ==> Short(c, rs)
  {
    if !NoGaps(rs) {
      var i :| 0 <= i < |rs| && Gap(rs[i]);
      assert (rs + [r])[i] == rs[i];
    }
    if Short(c, rs + [r]) {
      forall i | 0 <= i < |rs|
        ensures |Line(c, rs[i])| <= RESERVED_BYTES - GAP_BYTES
      {
        assert (rs + [r])[i] == rs[i];
      }
    }
  }

  lemma LinesPlus(c: Codec, rs: seq<Rec>, r: Rec)
    ensures Lines(c, rs + [r]) == Lines(c, rs) + Line(c, r)
  {
    var all := rs + [r];
    assert all[..|all| - 1] == rs && all[|all| - 1] == r;
  }

  lemma WrittenReserved(o: Options, rs: seq<Rec>, r: Rec)
    requires Reserved(o, rs) && |rs| < o.maxRecords && (!Gap(r) ==> |rs| < o.maxRecords - RESERVED_RECORDS)
    ensures Reserved(o, rs + [r])
  {
    forall i | 0 <= i < |rs + [r]| && o.maxRecords - RESERVED_RECORDS <= i
      ensures Gap((rs + [r])[i])
    {
      if i < |rs| { assert (rs + [r])[i] == rs[i]; }
    }
  }

  lemma GapIsThere(before: seq<Rec>, now: seq<Rec>)
    requires |now| == |before| + 1 && Gap(now[|before|])
    ensures !NoGaps(now)
  {
  }

  /** Once even the reserve is used up, a gap record is among the records. */
  lemma FullHasGap(o: Options, rs: seq<Rec>)
    requires o.Sufficient() && RoomyThroughout(o, rs) && Short(o.codec, rs)
    requires |rs| >= o.maxRecords || |Lines(o.codec, rs)| >= o.maxBytes - GAP_BYTES
    ensures !NoGaps(rs)
  {
    assert rs[..|rs|] == rs;
    assert Roomy(o, rs[..|rs|]);
  }

  lemma NewKeyLast(rs: seq<Rec>, r: Rec)
    requires Sequenced(rs) && r.sequence == |rs| + 1 && (r.dedup.Some? ==> r.dedup.value !in Keys(rs))
    ensures Sequenced(rs + [r])
  {
    forall i | 0 <= i < |rs| && rs[i].dedup.Some?
      ensures rs[i].dedup != r.dedup
    {
      assert rs[i].dedup.value in Keys(rs);
    }
  }

  lemma AllWhole(c: Codec, rs: seq<Rec>, k: nat, m: nat, offset: nat)
    requires c.Valid() && k <= |Lines(c, rs)| && m <= Whole(c, rs, k) && offset == |Lines(c, rs[..m])|
    requires offset >= k || IndexOf(Lines(c, rs)[..k][offset..], '\n') < 0 || m == Whole(c, rs, k)
    ensures m == Whole(c, rs, k)
  {
    if m < Whole(c, rs, k) {
      NextLine(c, rs, k, m, offset);
      WholeWithin(c, rs, k, m + 1);
      PrefixLines(c, rs, m);
    }
  }

  lemma FilePrefix(c: Codec, rs: seq<Rec>, k: nat, m: nat)
    requires m <= |rs| && |Lines(c, rs[..m])| <= k <= |Lines(c, rs)|
    ensures Lines(c, rs)[..k][..|Lines(c, rs[..m])|] == Lines(c, rs[..m])
  {
    LinesSplit(c, rs, m);
  }

  predicate UniqueSequences(rs: seq<Rec>) {
    forall i, j :: 0 <= i < j < |rs| ==> rs[i].sequence != rs[j].sequence
  }

  // ---------------------------------------------------------------- opening

  const RESTART := "collector restarted with an existing spool; events emitted while it was not running may be missing"
  const TORN := "; a partially written trailing record was discarded"

  /** Opens a spool file. `was` are the records of the spool that wrote it, and the file holds the
      first `k` bytes of what it wrote. Exactly the whole lines survive, a restart gap follows, and
      when not even that fits, opening fails. */
  method Open(opt: Options, data: Option<string>, ghost was: seq<Rec>, ghost k: nat) returns (s: Option<Spool>)
    requires opt.codec.Valid()
    requires data.Some? ==> k <= |Lines(opt.codec, was)| && data.value == Lines(opt.codec, was)[..k]
    requires data.Some? ==> Sequenced(was) && Reserved(opt, was) && RoomyThroughout(opt, was)
    ensures s.None? <==> !opt.Sufficient() || (data.Some? && !Reopens(opt, was, k))
    ensures s.Some? ==> fresh(s.value) && s.value.Valid() && s.value.opt == opt
    ensures s.Some? && data.None? ==> s.value.records == []
    ensures s.Some? && data.Some? ==> Recovered(opt.codec, was, k, s.value.records)
  {
    hide Whole, Lines, Sequenced, Reserved, RoomyThroughout, Keys;
    if !opt.Sufficient() { return None; }
    var spool := new Spool(opt);
    if data.Some? {
      var n := spool.ParseExisting(data.value, was, k);
      var written := spool.GapLocked("collector-restart", RESTART + if n < |data.value| then TORN else "");
      if !written { return None; }
    }
    s := Some(spool);
  }

  /** The gap that says the collector was away, and whether a line was torn. */
  ghost function RestartGap(c: Codec, was: seq<Rec>, k: nat): Rec {
    var m := Whole(c, was, k);
    Rec(RESTART + if |Lines(c, was[..m])| < k then TORN else "", Some("collector-restart"), None, m + 1)
  }

  /** There is room for that gap after the whole lines, and its line is accepted. */
  ghost predicate Reopens(opt: Options, was: seq<Rec>, k: nat) {
    var kept := was[..Whole(opt.codec, was, k)];
    && |kept| < opt.maxRecords && |Lines(opt.codec, kept)| < opt.maxBytes - GAP_BYTES
    && !Rejected(opt.codec, RestartGap(opt.codec, was, k))
  }

  /** The records of a reopened spool: the whole lines and one restart gap. */
  ghost predicate Recovered(c: Codec, was: seq<Rec>, k: nat, now: seq<Rec>) {
    now == was[..Whole(c, was, k)] + [RestartGap(c, was, k)]
  }

  /** What may happen to a spool over its life. A crash keeps any prefix of the file. */
  datatype Event = Spooled(body: string, gap: Option<string>, key: string) | Reported(kind: string, reason: string) | Exported | Crashed(kept: nat)

  /** How much of the file a crash leaves. */
  function KeptBytes(c: Codec, rs: seq<Rec>, e: Event): nat
    requires e.Crashed?
  {
    if e.kept <= |Lines(c, rs)| then e.kept else |Lines(c, rs)|
  }

  /** Any number of appends, gaps, exports, crashes at any byte and reopenings: as long as it
      opens, the spool's records are numbered from 1 without repeats, their keys are distinct, the
      file holds exactly their lines, and the reserve holds only gaps. It fails to open only after a
      crash at which the restart gap of the records written till then had no room or was refused. */
  method Lifetime(opt: Options, events: seq<Event>) returns (s: Option<Spool>, ghost last: seq<Rec>, ghost died: nat)
    requires opt.Sufficient() && opt.codec.Valid()
    ensures s.None? ==> died < |events| && events[died].Crashed? && Sequenced(last) && Reserved(opt, last)
    ensures s.None? ==> !Reopens(opt, last, KeptBytes(opt.codec, last, events[died]))
    ensures (forall e :: e in events ==> !e.Crashed?) ==> s.Some?
    ensures s.Some? ==> s.value.Valid()
    ensures s.Some? ==> Sequenced(s.value.records) && UniqueSequences(s.value.records) && Reserved(opt, s.value.records)
    ensures s.Some? ==> s.value.file == Lines(opt.codec, s.value.records)
  {
    hide Codec.Valid, Whole, Lines, Reserved, RoomyThroughout, Keys, NoGaps, Short;
    s := Open(opt, None, [], 0);
    var spool := s.value;
    last, died := [], 0;
    for i := 0 to |events|
      invariant spool.Valid() && spool.opt == opt && fresh(spool)
    {
      match events[i] {
        case Spooled(body, gap, key) => var _ := spool.Append(body, gap, key);
        case Reported(kind, reason) => var _ := spool.GapLocked(kind, reason);
        case Exported => var _ := spool.Records();
        case Crashed(kept) =>
          var k := if kept <= |spool.file| then kept else |spool.file|;
          var reopened := Open(opt, Some(spool.file[..k]), spool.records, k);
          if reopened.None? {
            last, died := spool.records, i;
            return None, last, died;
          }
          spool := reopened.value;
      }
    }
    s := Some(spool);
  }
}
