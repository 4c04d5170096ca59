/**
 STANs and RRNs over reconnects and restarts: the shared counter, where a restart resumes it, and why
 no two sent rows of one clock hour share an RRN.
 */
module Stan {
  import opened Numerals

  const STANS: nat := 1_000_000

  // Texts.

  /** A clock hour, in UTC. */
  datatype Hour = Hour(year: nat, day: nat, hour: nat)

  predicate OnCalendar(h: Hour) {
    1 <= h.day <= 366 && h.hour < 24
  }

  function Padded(n: nat, width: nat): string {
    PadLeft(Format(n, 10), width)
  }

  /** BuildRRN with an empty STAN: "%d%03d%02d". */
  function Prefix(h: Hour): string {
    Format(h.year % 10, 10) + Padded(h.day, 3) + Padded(h.hour, 2)
  }

  /** BuildRRN of an hour and a STAN's "%06d". */
  function BuildRRN(h: Hour, stan: nat): string {
    Prefix(h) + Padded(stan, 6)
  }

  lemma PowersOfTen()
    ensures Pow(10, 1) == 10 && Pow(10, 2) == 100 && Pow(10, 3) == 1000 && Pow(10, 6) == STANS
  {
    assert Pow(10, 4) == 10_000 && Pow(10, 5) == 100_000;
  }

  /** A number below the width's power is read back from its fixed-width text. */
  lemma PaddedIs(n: nat, width: nat)
    requires width >= 1 && n < Pow(10, width)
    ensures |Padded(n, width)| == width && IsNumeral(Padded(n, width), 10) && Parse(Padded(n, width), 10) == n
  {
    FormatWidth(n, 10, width);
    ParsePad(Format(n, 10), width, 10);
    ParseFormat(n, 10);
  }

  lemma PrefixWidth(h: Hour)
    requires OnCalendar(h)
    ensures |Prefix(h)| == 6
  {
    PowersOfTen();
    PaddedIs(h.day, 3);
    PaddedIs(h.hour, 2);
    FormatWidth(h.year % 10, 10, 1);
  }

  /** An RRN names its STAN and, but for the decade, its hour. */
  lemma RRNNames(h: Hour, stan: nat, g: Hour, other: nat)
    requires OnCalendar(h) && OnCalendar(g) && stan < STANS && other < STANS
    ensures BuildRRN(h, stan) == BuildRRN(g, other) <==>
            stan == other && h.year % 10 == g.year % 10 && h.day == g.day && h.hour == g.hour
  {
    if BuildRRN(h, stan) == BuildRRN(g, other) {
      PrefixWidth(h);
      PrefixWidth(g);
      assert BuildRRN(h, stan)[..6] == Prefix(h) && BuildRRN(h, stan)[6..] == Padded(stan, 6);
      assert BuildRRN(g, other)[..6] == Prefix(g) && BuildRRN(g, other)[6..] == Padded(other, 6);
      PowersOfTen();
      PaddedIs(stan, 6);
      PaddedIs(other, 6);
      PrefixNames(h, g);
    }
  }

  lemma PrefixNames(h: Hour, g: Hour)
    requires OnCalendar(h) && OnCalendar(g) && Prefix(h) == Prefix(g)
    ensures h.year % 10 == g.year % 10 && h.day == g.day && h.hour == g.hour
  {
    PowersOfTen();
    PrefixParts(h);
    PrefixParts(g);
    PaddedIs(h.day, 3);
    PaddedIs(g.day, 3);
    PaddedIs(h.hour, 2);
    PaddedIs(g.hour, 2);
    ParseFormat(h.year % 10, 10);
    ParseFormat(g.year % 10, 10);
  }

  /** What an RRN says, digit by digit: the last digit of the year, the day of the year, the hour and the STAN. */
  lemma RRNReads(h: Hour, stan: nat)
    requires OnCalendar(h) && stan < STANS
    ensures var rrn := BuildRRN(h, stan);
            && |rrn| == 12 && IsNumeral(rrn, 10)
            && Parse(rrn[..1], 10) == h.year % 10 && Parse(rrn[1..4], 10) == h.day
            && Parse(rrn[4..6], 10) == h.hour && Parse(rrn[6..], 10) == stan
  {
    PowersOfTen();
    PrefixParts(h);
    PrefixIsNumeral(h);
    PaddedIs(h.day, 3);
    PaddedIs(h.hour, 2);
    PaddedIs(stan, 6);
    ParseFormat(h.year % 10, 10);
    var rrn := BuildRRN(h, stan);
    assert rrn[..1] == Prefix(h)[..1] && rrn[1..4] == Prefix(h)[1..4] && rrn[4..6] == Prefix(h)[4..] && rrn[6..] == Padded(stan, 6);
  }

  lemma PrefixParts(h: Hour)
    requires OnCalendar(h)
    ensures |Prefix(h)| == 6
    ensures Prefix(h)[..1] == Format(h.year % 10, 10) && Prefix(h)[1..4] == Padded(h.day, 3) && Prefix(h)[4..] == Padded(h.hour, 2)
  {
    PowersOfTen();
    PaddedIs(h.day, 3);
    PaddedIs(h.hour, 2);
    FormatWidth(h.year % 10, 10, 1);
  }

  // The protocol.

  /** Hours are ordered as the clock runs. */
  predicate NotAfter(a: Hour, b: Hour) {
    a.year < b.year || (a.year == b.year && (a.day < b.day || (a.day == b.day && a.hour <= b.hour)))
  }

  /** wraps: how often the count had passed 999999 when this STAN was drawn. */
  datatype Draw = Draw(stan: nat, wraps: nat)

  /** A row, or one about to be inserted: the RRN is built before the insert, the send comes after it. */
  datatype Row = Row(hour: Hour, draw: Draw)

  datatype State = State(
    now: Hour,
    count: nat,            // the supervisor's counter, 0 in a new process
    resumed: bool,
    wraps: nat,
    held: set<Draw>,       // drawn by this process, not yet in an RRN; echoes and advices leave theirs here
    named: set<Row>,       // in an RRN, not yet inserted
    rows: seq<Row>)        // tran_log

  datatype Step =
    | Tick(later: Hour)
    | Restart
    | Resume
    | Next
    | Name(draw: Draw)
    | Insert(row: Row)

  function Init(now: Hour): State {
    State(now, 0, false, 0, {}, {}, [])
  }

  /** The STAN of a well-formed RRN that starts with prefix; 0 for any other text. */
  function StanUnder(rrn: string, prefix: string): nat {
    if |rrn| == 12 && IsNumeral(rrn, 10) && prefix <= rrn then Parse(rrn[6..], 10) else 0
  }

  function Texts(rows: seq<Row>): seq<string> {
    seq(|rows|, i requires 0 <= i < |rows| => BuildRRN(rows[i].hour, rows[i].draw.stan))
  }

  /** LastSTANInRRNPrefix over the RRNs in tran_log. */
  function LastUnder(rrns: seq<string>, prefix: string): nat {
    if rrns == [] then 0
    else
      var before, stan := LastUnder(rrns[..|rrns| - 1], prefix), StanUnder(rrns[|rrns| - 1], prefix);
      if stan > before then stan else before
  }

  function LastStan(rows: seq<Row>, prefix: string): nat {
    LastUnder(Texts(rows), prefix)
  }

  /** ResumeSTANAfter never moves the count back. */
  function ResumeAfter(count: nat, last: nat): nat {
    if last <= count then count else last
  }

  function DoNext(s: State): State {
    if !s.resumed then s
    else
      var stan := (s.count + 1) % STANS;
      var wraps := if stan == 0 then s.wraps + 1 else s.wraps;
      s.(count := s.count + 1, wraps := wraps, held := s.held + {Draw(stan, wraps)})
  }

  function Apply(s: State, step: Step): State {
    match step
    case Tick(later) => if NotAfter(s.now, later) && OnCalendar(later) then s.(now := later) else s
    case Restart => s.(count := 0, resumed := false, held := {}, named := {})
    case Resume => if s.resumed then s else s.(count := ResumeAfter(s.count, LastStan(s.rows, Prefix(s.now))), resumed := true)
    case Next => DoNext(s)
    case Name(d) => if d in s.held then s.(held := s.held - {d}, named := s.named + {Row(s.now, d)}) else s
    case Insert(r) => if r in s.named then s.(named := s.named - {r}, rows := s.rows + [r]) else s
  }

  function After(s: State, steps: seq<Step>): State
    decreases |steps|
  {
    if steps == [] then s else After(Apply(s, steps[0]), steps[1..])
  }

  // What every step keeps.

  ghost predicate Small(r: Row) {
    OnCalendar(r.hour) && r.draw.stan < STANS
  }

  /** Nothing this process drew, nor any row of this hour, is ahead of the count. */
  ghost predicate NotAhead(s: State, d: Draw) {
    d.wraps <= s.wraps && (d.wraps == s.wraps ==> d.stan <= s.count % STANS)
  }

  ghost predicate CountFits(s: State) {
    && OnCalendar(s.now)
    && (!s.resumed ==> s.count == 0 && s.held == {} && s.named == {})
    && (forall d :: d in s.held ==> d.stan < STANS && NotAhead(s, d))
    && (forall r :: r in s.named ==> Small(r) && NotAfter(r.hour, s.now) && NotAhead(s, r.draw))
    && (forall r :: r in s.rows ==> Small(r) && NotAfter(r.hour, s.now) && r.draw.wraps <= s.wraps)
    && (s.resumed ==> forall r :: r in s.rows && r.hour == s.now ==> NotAhead(s, r.draw))
  }

  ghost predicate Distinct(s: State) {
    && (forall d, r :: d in s.held && r in s.named ==> r.draw != d)
    && (forall d, r :: d in s.held && r in s.rows && r.hour == s.now ==> r.draw != d)
    && (forall r, q :: r in s.named && q in s.named && r != q ==> r.draw != q.draw)
    && (forall r, q :: r in s.named && q in s.rows && q.hour == r.hour ==> q.draw != r.draw)
    && (forall i, j :: 0 <= i < j < |s.rows| && s.rows[i].hour == s.rows[j].hour ==> s.rows[i].draw != s.rows[j].draw)
  }

  ghost predicate Invariant(s: State) {
    CountFits(s) && Distinct(s)
  }

  lemma StanUnderIs(r: Row)
    requires Small(r)
    ensures StanUnder(BuildRRN(r.hour, r.draw.stan), Prefix(r.hour)) == r.draw.stan
  {
    PowersOfTen();
    PrefixWidth(r.hour);
    PrefixIsNumeral(r.hour);
    PaddedIs(r.draw.stan, 6);
    var rrn := BuildRRN(r.hour, r.draw.stan);
    assert rrn[6..] == Padded(r.draw.stan, 6) && rrn[..6] == Prefix(r.hour);
  }

  lemma PrefixIsNumeral(h: Hour)
    ensures IsNumeral(Prefix(h), 10)
  {
    ParsePad(Format(h.day, 10), 3, 10);
    ParsePad(Format(h.hour, 10), 2, 10);
  }

  lemma {:induction false} LastUnderIs(rrns: seq<string>, prefix: string)
    ensures LastUnder(rrns, prefix) < STANS
    ensures forall k :: 0 <= k < |rrns| ==> StanUnder(rrns[k], prefix) <= LastUnder(rrns, prefix)
  {
    if rrns != [] {
      LastUnderIs(rrns[..|rrns| - 1], prefix);
      StanUnderBound(rrns[|rrns| - 1], prefix);
    }
  }

  /** The maximum is over every row of the hour, and below the wrap. */
  lemma LastStanIs(rows: seq<Row>, now: Hour)
    requires OnCalendar(now) && forall r :: r in rows ==> Small(r)
    ensures LastStan(rows, Prefix(now)) < STANS
    ensures forall r :: r in rows && r.hour == now ==> r.draw.stan <= LastStan(rows, Prefix(now))
  {
    LastUnderIs(Texts(rows), Prefix(now));
    forall r | r in rows && r.hour == now ensures r.draw.stan <= LastStan(rows, Prefix(now)) {
      var k :| 0 <= k < |rows| && rows[k] == r;
      StanUnderIs(r);
      assert StanUnder(Texts(rows)[k], Prefix(now)) == r.draw.stan;
    }
  }

  lemma StanUnderBound(rrn: string, prefix: string)
    ensures StanUnder(rrn, prefix) < STANS
  {
    if |rrn| == 12 && IsNumeral(rrn, 10) && prefix <= rrn {
      PowersOfTen();
      ParseBound(rrn[6..], 10);
    }
  }

  lemma ResumeKeeps(s: State)
    requires Invariant(s)
    ensures Invariant(Apply(s, Resume))
  {
    LastStanIs(s.rows, s.now);
    if !s.resumed {
      ResumedFrom(s, LastStan(s.rows, Prefix(s.now)));
    }
  }

  lemma ResumedFrom(s: State, last: nat)
    requires Invariant(s) && !s.resumed && last < STANS
    requires forall r :: r in s.rows && r.hour == s.now ==> r.draw.stan <= last
    ensures Invariant(s.(count := ResumeAfter(s.count, last), resumed := true))
  {
    var s' := s.(count := ResumeAfter(s.count, last), resumed := true);
    forall r | r in s'.rows && r.hour == s'.now ensures NotAhead(s', r.draw) {
      assert Small(r);
    }
  }

  lemma TickKeeps(s: State, later: Hour)
    requires Invariant(s)
    ensures Invariant(Apply(s, Tick(later)))
  {
    var s' := Apply(s, Tick(later));
    assert forall r :: r in s.rows && r.hour == s'.now ==> s'.now == s.now;
  }

  lemma NextKeeps(s: State)
    requires Invariant(s)
    ensures Invariant(DoNext(s))
  {
    if s.resumed {
      var s' := DoNext(s);
      NextIsAhead(s);
      forall d | d in s'.held ensures d.stan < STANS && NotAhead(s', d) {
      }
      forall r | r in s'.rows ensures Small(r) && NotAfter(r.hour, s'.now) && r.draw.wraps <= s'.wraps {
      }
    }
  }

  lemma NextIsAhead(s: State)
    requires s.resumed
    ensures var s' := DoNext(s);
            var drawn := Draw(s'.count % STANS, s'.wraps);
            && s'.held == s.held + {drawn} && NotAhead(s', drawn)
            && forall d :: NotAhead(s, d) ==> NotAhead(s', d) && d != drawn
  {
  }

  lemma NameKeeps(s: State, d: Draw)
    requires Invariant(s)
    ensures Invariant(Apply(s, Name(d)))
  {
  }

  lemma InsertKeeps(s: State, r: Row)
    requires Invariant(s)
    ensures Invariant(Apply(s, Insert(r)))
  {
    if r in s.named {
      InsertDistinct(s, r);
    }
  }

  lemma InsertDistinct(s: State, r: Row)
    requires Distinct(s) && r in s.named
    ensures Distinct(Apply(s, Insert(r)))
  {
    var s' := Apply(s, Insert(r));
    forall i, j | 0 <= i < j < |s'.rows| && s'.rows[i].hour == s'.rows[j].hour ensures s'.rows[i].draw != s'.rows[j].draw {
      assert s.rows[i] in s.rows;
    }
  }

  lemma RestartKeeps(s: State)
    requires Invariant(s)
    ensures Invariant(Apply(s, Restart))
  {
  }

  lemma StepKeeps(s: State, step: Step)
    requires Invariant(s)
    ensures Invariant(Apply(s, step))
  {
    match step
    case Tick(later) => TickKeeps(s, later);
    case Restart => RestartKeeps(s);
    case Resume => ResumeKeeps(s);
    case Next => NextKeeps(s);
    case Name(d) => NameKeeps(s, d);
    case Insert(r) => InsertKeeps(s, r);
  }

  lemma {:induction false} AlwaysAfter(s: State, steps: seq<Step>)
    requires Invariant(s)
    ensures Invariant(After(s, steps))
    decreases |steps|
  {
    if steps != [] {
      StepKeeps(s, steps[0]);
      AlwaysAfter(Apply(s, steps[0]), steps[1..]);
    }
  }

  /** Two rows of one clock hour never share an RRN, unless the count wrapped between their draws. */
  lemma OneRRNPerHour(now: Hour, steps: seq<Step>, i: nat, j: nat)
    requires OnCalendar(now)
    requires var rows := After(Init(now), steps).rows;
             i < j < |rows| && rows[i].hour == rows[j].hour && rows[i].draw.wraps == rows[j].draw.wraps
    ensures var rows := After(Init(now), steps).rows;
            BuildRRN(rows[i].hour, rows[i].draw.stan) != BuildRRN(rows[j].hour, rows[j].draw.stan)
  {
    AlwaysAfter(Init(now), steps);
    var rows := After(Init(now), steps).rows;
    assert rows[i] in rows && rows[j] in rows && Small(rows[i]) && Small(rows[j]);
    RRNNames(rows[i].hour, rows[i].draw.stan, rows[j].hour, rows[j].draw.stan);
  }

  // The counter in place.

  class Supervisor {
    var stan: nat

    constructor ()
      ensures stan == 0
    {
      stan := 0;
    }

    method NextSTAN() returns (text: string)
      modifies this
      ensures stan == old(stan) + 1
      ensures |text| == 6 && IsNumeral(text, 10) && Parse(text, 10) == stan % STANS
    {
      stan := stan + 1;
      PowersOfTen();
      PaddedIs(stan % STANS, 6);
      text := Padded(stan % STANS, 6);
    }

    /** The compare-and-swap loop; moved says how others moved the count before each swap. */
    method ResumeSTANAfter(last: nat, moved: seq<nat>)
      modifies this
      ensures stan >= old(stan) && stan >= last
      ensures moved == [] ==> stan == ResumeAfter(old(stan), last)
    {
      var i := 0;
      while true
        invariant i <= |moved| && stan >= old(stan) && (i == 0 ==> stan == old(stan))
        decreases |moved| - i
      {
        var cur := stan;
        if last <= cur {
          return;
        }
        if i < |moved| {
          stan := stan + moved[i];
          i := i + 1;
        }
        if stan == cur {
          stan := last;
          return;
        }
      }
    }
  }

  /** The query's maximum, row by row. */
  method LastSTANInRRNPrefix(rrns: seq<string>, prefix: string) returns (last: nat)
    ensures last == LastUnder(rrns, prefix)
    ensures forall k :: 0 <= k < |rrns| ==> StanUnder(rrns[k], prefix) <= last
    ensures last == 0 || exists k :: 0 <= k < |rrns| && StanUnder(rrns[k], prefix) == last
  {
    last := 0;
    var i := 0;
    while i < |rrns|
      invariant i <= |rrns| && last == LastUnder(rrns[..i], prefix)
      invariant last == 0 || exists k :: 0 <= k < i && StanUnder(rrns[k], prefix) == last
    {
      assert rrns[..i + 1][..i] == rrns[..i];
      var stan := StanUnder(rrns[i], prefix);
      if stan > last {
        last := stan;
      }
      i := i + 1;
    }
    assert rrns[..i] == rrns;
    LastUnderIs(rrns, prefix);
  }
}
