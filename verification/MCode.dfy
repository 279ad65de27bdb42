/** The M-code table and its wait record (src/glowforge_mcode.c): a list of numbers
    parsed whole or not at all, and waits that take one answer each, under their own
    sequence number. */
module MCode {

  const CODE_MIN := 160
  const CODE_MAX := 179
  const TABLE_MAX := 20
  const TEXT_MAX := 96

  // ---- printing ----

  function Digit(d: nat): char
    requires d <= 9
  {
    ('0' as int + d) as char
  }

  /** A code's three digits. */
  function Digits(c: int): string
    requires CODE_MIN <= c <= CODE_MAX
  {
    [Digit(c / 100), Digit(c / 10 % 10), Digit(c % 10)]
  }

  predicate InRange(codes: seq<int>) { forall i :: 0 <= i < |codes| ==> CODE_MIN <= codes[i] <= CODE_MAX }

  predicate Distinct(codes: seq<int>) { forall i, j :: 0 <= i < j < |codes| ==> codes[i] != codes[j] }

  /** A table some list may name. */
  predicate Good(codes: seq<int>) { 1 <= |codes| <= TABLE_MAX && InRange(codes) && Distinct(codes) }

  /** The codes joined by commas. */
  function Print(codes: seq<int>): string
    requires InRange(codes)
  {
    if codes == [] then ""
    else if |codes| == 1 then Digits(codes[0])
    else Digits(codes[0]) + "," + Print(codes[1..])
  }

  // ---- numbers ----

  predicate IsDigit(c: char) { '0' <= c <= '9' }

  function DigitValue(c: char): (d: nat)
    requires IsDigit(c)
    ensures d <= 9 && c == Digit(d)
  {
    c as int - '0' as int
  }

  /** The length of the run of digits from p on. */
  function Run(s: string, p: nat): (k: nat)
    requires p <= |s|
    ensures p + k <= |s| && (p + k == |s| || !IsDigit(s[p + k]))
    ensures forall i :: p <= i < p + k ==> IsDigit(s[i])
    decreases |s| - p
  {
    if p < |s| && IsDigit(s[p]) then 1 + Run(s, p + 1) else 0
  }

  /** The number a string of digits spells. */
  function Value(ds: string): nat
    requires forall i :: 0 <= i < |ds| ==> IsDigit(ds[i])
  {
    if ds == "" then 0 else Value(ds[..|ds| - 1]) * 10 + DigitValue(ds[|ds| - 1])
  }

  lemma Value3(ds: string)
    requires |ds| <= 3 && forall i :: 0 <= i < |ds| ==> IsDigit(ds[i])
    ensures |ds| < 3 ==> Value(ds) <= 99
    ensures |ds| == 3 ==> Value(ds) == 100 * DigitValue(ds[0]) + 10 * DigitValue(ds[1]) + DigitValue(ds[2])
  {
    if |ds| >= 1 {
      var two := ds[..|ds| - 1];
      if |two| >= 1 {
        var one := two[..|two| - 1];
        assert Value(two) == Value(one) * 10 + DigitValue(two[|two| - 1]);
        if |one| >= 1 {
          assert one[..|one| - 1] == "";
          assert Value(one) == Value(one[..|one| - 1]) * 10 + DigitValue(one[0]);
        }
      }
    }
  }

  lemma ThreeDigits(a: nat, b: nat, u: nat, c: nat)
    requires a <= 9 && b <= 9 && u <= 9 && CODE_MIN <= c <= CODE_MAX
    ensures 100 * a + 10 * b + u == c <==> a == c / 100 && b == c / 10 % 10 && u == c % 10
  {
    var t := c / 10;
    assert c == 10 * t + c % 10;
    assert t == 16 || t == 17;
    assert c / 100 == 1 && t % 10 == t - 10;
  }

  /** At most three digits that spell a code are exactly its print, and its print
      spells it. */
  lemma SpellsCode(ds: string, c: int)
    requires |ds| <= 3 && (forall i :: 0 <= i < |ds| ==> IsDigit(ds[i])) && CODE_MIN <= c <= CODE_MAX
    ensures Value(ds) == c <==> ds == Digits(c)
  {
    Value3(ds);
    hide Value;
    if |ds| == 3 {
      var a, b, u := DigitValue(ds[0]), DigitValue(ds[1]), DigitValue(ds[2]);
      ThreeDigits(a, b, u, c);
      assert ds == [ds[0], ds[1], ds[2]] == [Digit(a), Digit(b), Digit(u)];
    }
  }

  // ---- parsing ----

  /** strtol from p: where the digits end, and their value while at most three. */
  method Strtol(s: string, p: nat) returns (end: nat, v: nat)
    requires p < |s| && IsDigit(s[p])
    ensures end == p + Run(s, p) && p < end <= |s|
    ensures forall i :: 0 <= i < |s[p..end]| ==> IsDigit(s[p..end][i])
    ensures v == Value(s[p..end])
  {
    end, v := p, 0;
    while end < |s| && IsDigit(s[end])
      invariant p <= end <= |s|
      invariant forall i :: p <= i < end ==> IsDigit(s[i])
      invariant v == Value(s[p..end])
      invariant Run(s, p) == end - p + Run(s, end)
    {
      assert s[p..end + 1][..end - p] == s[p..end];
      v := v * 10 + DigitValue(s[end]);
      end := end + 1;
    }
  }

  /** What lies behind the codes read so far: the rest of any table the list could
      be the print of. */
  ghost predicate Ahead(s: string, p: nat, codes: seq<int>, all: seq<int>)
    requires p <= |s|
  {
    Good(all) && s == Print(all) ==>
      |codes| <= |all| && codes == all[..|codes|] && s[p..] == Print(all[|codes|..])
  }

  lemma PrintHead(rest: seq<int>)
    requires InRange(rest) && rest != []
    ensures var s := Print(rest);
            && |s| >= 3 && s[..3] == Digits(rest[0])
            && IsDigit(s[0]) && Run(s, 0) == 3
            && (|rest| == 1 ==> |s| == 3)
            && (|rest| > 1 ==> |s| > 4 && s[3] == ',' && s[4..] == Print(rest[1..]))
  {
    var s := Print(rest);
    var ds := Digits(rest[0]);
    assert s[..3] == ds;
    assert IsDigit(s[0]) && IsDigit(s[1]) && IsDigit(s[2]);
    if |rest| > 1 {
      assert s == (ds + ",") + Print(rest[1..]);
      PrintHead(rest[1..]);
    }
    assert Run(s, 3) == 0;
    assert Run(s, 2) == 1 && Run(s, 1) == 2;
  }

  lemma {:induction false} RunShift(s: string, p: nat, q: nat)
    requires p <= q <= |s|
    ensures Run(s[p..], q - p) == Run(s, q)
    decreases |s| - q
  {
    if q < |s| { RunShift(s, p, q + 1); }
  }

  /** The next code of any table the list is the print of: exactly what the parser
      demands of the next number. */
  lemma NextCode(s: string, p: nat, codes: seq<int>, all: seq<int>)
    requires p < |s| && Ahead(s, p, codes, all) && Good(all) && s == Print(all)
    ensures var n, k := |codes|, Run(s, p);
            && n < |all| && n < TABLE_MAX && IsDigit(s[p]) && k == 3 && s[p..p + k] == Digits(all[n])
            && !(all[n] in codes)
            && (if n + 1 == |all| then p + k == |s|
                else p + k + 1 < |s| && s[p + k] == ',' && s[p + k + 1..] == Print(all[n + 1..]))
  {
    var n, rest, tail := |codes|, all[|codes|..], s[p..];
    assert tail == Print(rest) && rest != [];
    PrintHead(rest);
    RunShift(s, p, p);
    assert tail[..3] == s[p..p + 3];
    if |rest| > 1 {
      assert tail[3] == s[p + 3] && tail[4..] == s[p + 4..] && rest[1..] == all[n + 1..];
    }
    assert all[n] == rest[0];
  }

  /** A code read, and the list moved on behind its comma or to its end. */
  lemma ReadCode(s: string, p: nat, q: nat, codes: seq<int>, c: int, all: seq<int>)
    requires p < |s| && q <= |s| && CODE_MIN <= c <= CODE_MAX && s[p..p + Run(s, p)] == Digits(c)
    requires Continues(s, p + Run(s, p), q)
    requires Ahead(s, p, codes, all)
    ensures Ahead(s, q, codes + [c], all)
  {
    if Good(all) && s == Print(all) {
      NextCode(s, p, codes, all);
      var n := |codes|;
      DigitsInjective(c, all[n]);
      assert (codes + [c]) == all[..n + 1];
      if n + 1 == |all| { assert s[q..] == "" == Print(all[n + 1..]); }
    }
  }

  lemma DigitsInjective(a: int, b: int)
    requires CODE_MIN <= a <= CODE_MAX && CODE_MIN <= b <= CODE_MAX && Digits(a) == Digits(b)
    ensures a == b
  {
    assert Digits(a)[1] == Digits(b)[1] && Digits(a)[2] == Digits(b)[2];
  }

  /** The list read so far is the print of the codes read so far. */
  ghost predicate Behind(s: string, p: nat, codes: seq<int>)
    requires p <= |s|
  {
    && InRange(codes) && Distinct(codes) && |codes| <= TABLE_MAX
    && (if codes == [] then p == 0
        else if p == |s| then s == Print(codes)
        else s[..p] == Print(codes) + ",")
  }

  lemma {:induction false} PrintAppend(codes: seq<int>, c: int)
    requires InRange(codes) && CODE_MIN <= c <= CODE_MAX && codes != []
    ensures InRange(codes + [c]) && Print(codes + [c]) == Print(codes) + "," + Digits(c)
  {
    var all := codes + [c];
    assert all[0] == codes[0] && all[1..] == codes[1..] + [c];
    if |codes| == 1 {
      var last := all[1..];
      assert last == [c];
      assert Print(last) == Digits(last[0]);
    } else {
      PrintAppend(codes[1..], c);
      assert Digits(codes[0]) + "," + (Print(codes[1..]) + "," + Digits(c)) ==
             (Digits(codes[0]) + "," + Print(codes[1..])) + "," + Digits(c);
    }
  }

  lemma PrintOne(c: int)
    requires CODE_MIN <= c <= CODE_MAX
    ensures InRange([c]) && Print([c]) == Digits(c)
  {
  }

  lemma ReadBehind(s: string, p: nat, e: nat, q: nat, codes: seq<int>, c: int)
    requires p < e <= |s| && q <= |s| && CODE_MIN <= c <= CODE_MAX && !(c in codes) && |codes| < TABLE_MAX
    requires s[p..e] == Digits(c) && Continues(s, e, q) && Behind(s, p, codes)
    ensures Behind(s, q, codes + [c])
  {
    TextBehind(s, p, e, codes, c);
    hide Print, Digits;
    if q == |s| { assert s[..e] == s; } else { assert s[..q] == s[..e] + ","; }
  }

  /** The text up to a code just read is the print of the codes with it. */
  lemma TextBehind(s: string, p: nat, e: nat, codes: seq<int>, c: int)
    requires p < e <= |s| && CODE_MIN <= c <= CODE_MAX && s[p..e] == Digits(c) && Behind(s, p, codes)
    ensures InRange(codes + [c]) && s[..e] == Print(codes + [c])
  {
    assert s[..e] == s[..p] + s[p..e];
    if codes == [] {
      PrintOne(c);
      assert codes + [c] == [c];
    } else {
      PrintAppend(codes, c);
    }
  }

  /** Print is injective: a list names one table. */
  lemma {:induction false} PrintInjective(a: seq<int>, b: seq<int>)
    requires InRange(a) && InRange(b) && Print(a) == Print(b)
    ensures a == b
  {
    if a != [] && b != [] {
      PrintHead(a);
      PrintHead(b);
      DigitsInjective(a[0], b[0]);
      if |a| > 1 && |b| > 1 {
        PrintInjective(a[1..], b[1..]);
      }
    } else if a != [] {
      PrintHead(a);
    } else if b != [] {
      PrintHead(b);
    }
  }

  /** The list is the print of no table. */
  ghost predicate NoTable(s: string) { forall all :: Good(all) ==> s != Print(all) }

  ghost predicate AllAhead(s: string, p: nat, codes: seq<int>)
    requires p <= |s|
  {
    forall all :: Ahead(s, p, codes, all)
  }

  /** Where the list goes on behind a code that ends at e. */
  predicate Continues(s: string, e: nat, q: nat) {
    q == |s| == e || (q == e + 1 && q < |s| && s[e] == ',')
  }

  /** What the parser demands of the next number. */
  ghost predicate Demanded(s: string, p: nat, codes: seq<int>)
    requires p < |s|
  {
    var k := Run(s, p);
    && |codes| < TABLE_MAX && k == 3
    && (exists c :: CODE_MIN <= c <= CODE_MAX && s[p..p + k] == Digits(c) && !(c in codes))
    && (p + k == |s| || (p + k + 1 < |s| && s[p + k] == ','))
  }

  /** A list that fails the demand is the print of no table. */
  lemma DemandFails(s: string, p: nat, codes: seq<int>)
    requires p < |s| && AllAhead(s, p, codes) && !Demanded(s, p, codes)
    ensures NoTable(s)
  {
    forall all | Good(all)
      ensures s != Print(all)
    {
      assert Ahead(s, p, codes, all);
      if s == Print(all) {
        NextCode(s, p, codes, all);
        assert false;
      }
    }
  }

  lemma ReadAhead(s: string, p: nat, q: nat, codes: seq<int>, c: int)
    requires p < |s| && q <= |s| && CODE_MIN <= c <= CODE_MAX
    requires s[p..p + Run(s, p)] == Digits(c) && Continues(s, p + Run(s, p), q) && AllAhead(s, p, codes)
    ensures AllAhead(s, q, codes + [c])
  {
    forall all
      ensures Ahead(s, q, codes + [c], all)
    {
      assert Ahead(s, p, codes, all);
      ReadCode(s, p, q, codes, c, all);
    }
  }

  method Contains(codes: seq<int>, v: int) returns (r: bool)
    ensures r <==> v in codes
  {
    var i := 0;
    while i < |codes|
      invariant 0 <= i <= |codes| && !(v in codes[..i])
    {
      if codes[i] == v { return true; }
      i := i + 1;
    }
    r := false;
  }

  /** The demand, as the parser tests it. */
  lemma DemandRead(s: string, p: nat, codes: seq<int>, e: nat, v: nat)
    requires p < |s| && p < e && e == p + Run(s, p) && v == Value(s[p..e])
    ensures Demanded(s, p, codes) <==>
            && |codes| < TABLE_MAX && e - p <= 3 && CODE_MIN <= v <= CODE_MAX && !(v in codes)
            && (e == |s| || (e + 1 < |s| && s[e] == ','))
    ensures e - p <= 3 && CODE_MIN <= v <= CODE_MAX ==> s[p..e] == Digits(v)
  {
    var ds := s[p..e];
    if e - p <= 3 {
      forall c | CODE_MIN <= c <= CODE_MAX
        ensures v == c <==> ds == Digits(c)
      {
        SpellsCode(ds, c);
      }
      Value3(ds);
    }
    hide Value, Run;
  }

  /** One number of the list, and what is behind it. */
  method NextNumber(s: string, p: nat, codes: seq<int>) returns (ok: bool, v: int, q: nat)
    requires p < |s| && AllAhead(s, p, codes) && Behind(s, p, codes)
    ensures !ok ==> NoTable(s)
    ensures ok ==> p < q <= |s| && AllAhead(s, q, codes + [v]) && Behind(s, q, codes + [v])
  {
    hide AllAhead, Behind, NoTable, Value, Demanded;
    ok, v, q := false, 0, p;
    if |codes| == TABLE_MAX || !IsDigit(s[p]) {
      EarlyRefusal(s, p, codes);
      return;
    }
    var e, n := Strtol(s, p);
    var dup := Contains(codes, n);
    DemandRead(s, p, codes, e, n);
    BehindShort(s, p, codes);
    if e - p > 3 || n < CODE_MIN || n > CODE_MAX || dup || (e < |s| && (s[e] != ',' || e + 1 == |s|)) {
      DemandFails(s, p, codes);
      return;
    }
    ok, v, q := true, n, if e < |s| then e + 1 else e;
    ReadBehind(s, p, e, q, codes, v);
    ReadAhead(s, p, q, codes, v);
  }

  lemma BehindShort(s: string, p: nat, codes: seq<int>)
    requires p <= |s| && Behind(s, p, codes)
    ensures |codes| <= TABLE_MAX
  {
  }

  lemma EarlyRefusal(s: string, p: nat, codes: seq<int>)
    requires p < |s| && AllAhead(s, p, codes) && (|codes| == TABLE_MAX || !IsDigit(s[p]))
    ensures NoTable(s)
  {
    assert !IsDigit(s[p]) ==> Run(s, p) == 0;
    DemandFails(s, p, codes);
  }

  /** The comma-joined list parsed: accepted exactly when it is the print of 1 to 20
      distinct codes, and then it yields that sequence. */
  method ParseList(list: string) returns (ok: bool, codes: seq<int>)
    ensures ok ==> Good(codes) && list == Print(codes)
    ensures !ok ==> NoTable(list)
  {
    codes := [];
    var p := 0;
    NothingRead(list, codes);
    hide AllAhead, NoTable;
    while p < |list|
      invariant p <= |list| && Behind(list, p, codes) && AllAhead(list, p, codes)
    {
      var more, v, q := NextNumber(list, p, codes);
      if !more { return false, []; }
      codes, p := codes + [v], q;
    }
    ok := |codes| != 0;
    if !ok { NoEmptyPrint(list); }
  }

  lemma NothingRead(s: string, none: seq<int>)
    requires |none| == 0
    ensures Behind(s, 0, none) && AllAhead(s, 0, none)
  {
    forall all
      ensures Ahead(s, 0, none, all)
    {
      if Good(all) { assert all[0..] == all && s[0..] == s; }
    }
  }

  lemma NoEmptyPrint(list: string)
    requires list == ""
    ensures NoTable(list)
  {
    forall all | Good(all)
      ensures list != Print(all)
    {
      PrintHead(all);
    }
  }

  // ---- the wait record ----

  /** How many sequence numbers there are before they come round: 1 to 2^32 - 1. */
  const NUMBERS := 0xffff_ffff

  type Number = n: int | 0 <= n <= 0xffff_ffff

  datatype Wait = Wait(active: bool, answered: bool, ok: bool, number: Number, text: string, next: Number)

  /** A printable text without brackets, short enough for a message line. */
  predicate Sayable(text: string) {
    |text| <= TEXT_MAX && forall i :: 0 <= i < |text| ==> ' ' <= text[i] <= '~' && text[i] != '[' && text[i] != ']'
  }

  predicate Takes(w: Wait, number: Number, text: string) {
    w.active && !w.answered && number == w.number && Sayable(text)
  }

  function Answer(w: Wait, number: Number, ok: bool, text: string): Wait {
    if Takes(w, number, text) then w.(answered := true, ok := ok, text := text) else w
  }

  /** A code begins to wait under the next number; zero is no number. */
  function Begin(w: Wait): Wait {
    w.(number := w.next, next := if w.next == NUMBERS then 1 else w.next + 1,
       answered := false, text := "", active := true)
  }

  datatype Step = Begins | Answers(number: Number, ok: bool, text: string) | Ends

  predicate Enabled(w: Wait, a: Step) {
    match a
    case Begins => !w.active
    case Answers(_, _, _) => true
    case Ends => w.active
  }

  function Next(w: Wait, a: Step): Wait
    requires Enabled(w, a)
  {
    match a
    case Begins => Begin(w)
    case Answers(number, ok, text) => Answer(w, number, ok, text)
    case Ends => w.(active := false)
  }

  /** An accepted answer: which wait it ended, and the number it came under. */
  datatype Accepted = Accepted(wait: nat, number: Number)

  /** The waits begun so far, and the answers accepted. */
  datatype Log = Log(waits: nat, taken: seq<Accepted>)

  function Observe(o: Log, w: Wait, a: Step): Log
    requires Enabled(w, a)
  {
    match a
    case Begins => o.(waits := o.waits + 1)
    case Answers(number, _, text) =>
      if Takes(w, number, text) && o.waits > 0 then o.(taken := o.taken + [Accepted(o.waits - 1, number)]) else o
    case Ends => o
  }

  ghost predicate IsRun(w: Wait, steps: seq<Step>)
    decreases |steps|
  {
    steps == [] || (Enabled(w, steps[0]) && IsRun(Next(w, steps[0]), steps[1..]))
  }

  ghost function Logged(o: Log, w: Wait, steps: seq<Step>): Log
    requires IsRun(w, steps)
    decreases |steps|
  {
    if steps == [] then o else Logged(Observe(o, w, steps[0]), Next(w, steps[0]), steps[1..])
  }

  /** The number of the k-th wait. */
  function NumberOf(k: nat): Number { k % NUMBERS + 1 }

  lemma NumberAfter(k: nat)
    ensures NumberOf(k + 1) == if NumberOf(k) == NUMBERS then 1 else NumberOf(k) + 1
  {
    var r, q := k % NUMBERS, k / NUMBERS;
    assert k == q * NUMBERS + r;
    if r == NUMBERS - 1 {
      assert k + 1 == (q + 1) * NUMBERS + 0;
      assert (k + 1) % NUMBERS == 0;
    } else {
      assert k + 1 == q * NUMBERS + (r + 1);
      assert (k + 1) % NUMBERS == r + 1;
    }
  }

  ghost predicate OncePerWait(o: Log) {
    && (forall i :: 0 <= i < |o.taken| ==> o.taken[i].wait < o.waits && o.taken[i].number == NumberOf(o.taken[i].wait))
    && (forall i, j :: 0 <= i < j < |o.taken| ==> o.taken[i].wait < o.taken[j].wait)
  }

  ghost predicate Waits(o: Log, w: Wait) {
    && OncePerWait(o)
    && w.next == NumberOf(o.waits)
    && (w.active ==> o.waits > 0 && w.number == NumberOf(o.waits - 1))
    && (w.active && !w.answered ==> o.taken == [] || o.taken[|o.taken| - 1].wait < o.waits - 1)
  }

  lemma StepWaits(o: Log, w: Wait, a: Step)
    requires Enabled(w, a) && Waits(o, w)
    ensures Waits(Observe(o, w, a), Next(w, a))
  {
    match a {
      case Begins => NumberAfter(o.waits);
      case Answers(_, _, _) =>
      case Ends =>
    }
  }

  lemma {:induction false} RunWaits(o: Log, w: Wait, steps: seq<Step>)
    requires IsRun(w, steps) && Waits(o, w)
    ensures OncePerWait(Logged(o, w, steps))
    decreases |steps|
  {
    hide Next, Observe, Enabled, OncePerWait;
    if steps != [] {
      StepWaits(o, w, steps[0]);
      hide Waits;
      RunWaits(Observe(o, w, steps[0]), Next(w, steps[0]), steps[1..]);
    }
  }

  /** Over every run from the start: each wait accepts at most one answer, the waits
      answered come in order, and every answer came under the number of the very
      wait it ended. */
  lemma OneAnswerPerWait(w: Wait, steps: seq<Step>)
    requires !w.active && w.next == 1 && IsRun(w, steps)
    ensures var o := Logged(Log(0, []), w, steps);
            && (forall i :: 0 <= i < |o.taken| ==>
                  o.taken[i].wait < o.waits && o.taken[i].number == o.taken[i].wait % NUMBERS + 1)
            && (forall i, j :: 0 <= i < j < |o.taken| ==> o.taken[i].wait < o.taken[j].wait)
  {
    RunWaits(Log(0, []), w, steps);
  }

  // ---- in place ----

  class Codes {
    var table: seq<int>
    var wait: Wait

    /** The list put in force: "-" empties the table, the print of a table becomes
        that table, and anything else changes nothing. */
    method SetTable(list: string) returns (ok: bool)
      modifies this`table
      ensures ok <==> list == "-" || !NoTable(list)
      ensures ok && list == "-" ==> table == []
      ensures ok && list != "-" ==> Good(table) && Print(table) == list
      ensures forall codes :: Good(codes) && list == Print(codes) && list != "-" ==> table == codes
      ensures !ok ==> table == old(table)
    {
      if list == "-" {
        table := [];
        return true;
      }
      var codes;
      ok, codes := ParseList(list);
      if ok {
        table := codes;
        forall all | Good(all) && list == Print(all)
          ensures all == codes
        {
          PrintInjective(all, codes);
        }
      }
    }

    /** An answer from the port: 0 accepted, -1 stale or unfit. */
    method TakeAnswer(number: Number, ok: bool, text: string) returns (rc: int)
      modifies this`wait
      ensures wait == Answer(old(wait), number, ok, text)
      ensures rc == (if Takes(old(wait), number, text) then 0 else -1)
    {
      if !wait.active || wait.answered || number != wait.number { return -1; }
      if |text| > TEXT_MAX { return -1; }
      var i := 0;
      while i < |text|
        invariant 0 <= i <= |text| && wait == old(wait)
        invariant forall j :: 0 <= j < i ==> ' ' <= text[j] <= '~' && text[j] != '[' && text[j] != ']'
      {
        if text[i] < ' ' || text[i] > '~' || text[i] == '[' || text[i] == ']' { return -1; }
        i := i + 1;
      }
      wait := wait.(text := text, ok := ok, answered := true);
      rc := 0;
    }
  }
}
