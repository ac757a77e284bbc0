/**
 Client order ids (`wliq-<date>-<symbol>-<intent>-<seq>`), how the journal prints them, parses them back,
 and keeps them unique over restarts.
 */
module OrderIds {
  import opened Wrappers
  import opened Models

  // ----- decimal numerals

  function Digit(d: nat): char
    requires d < 10
  {
    "0123456789"[d]
  }

  predicate IsDigit(c: char) { '0' <= c <= '9' }

  predicate AllDigits(s: string) { forall i :: 0 <= i < |s| ==> IsDigit(s[i]) }

  function Numeral(n: nat): (s: string)
    ensures |s| > 0 && AllDigits(s)
  {
    if n < 10 then [Digit(n)] else Numeral(n / 10) + [Digit(n % 10)]
  }

  function Zeros(k: nat): (s: string)
    ensures |s| == k && AllDigits(s)
  {
    if k == 0 then "" else "0" + Zeros(k - 1)
  }

  /** The format `{n:04d}`: at least four digits, more when needed. */
  function Padded(n: nat): (s: string)
    ensures |s| >= 4 && AllDigits(s)
  {
    var s := Numeral(n);
    if |s| < 4 then Zeros(4 - |s|) + s else s
  }

  function CharValue(c: char): nat { if IsDigit(c) then (c - '0') as nat else 0 }

  /** `int(s)` on a string of digits. */
  function Value(s: string): nat
  {
    if s == "" then 0 else 10 * Value(s[..|s| - 1]) + CharValue(s[|s| - 1])
  }

  lemma {:induction false} ValueOfNumeral(n: nat)
    ensures Value(Numeral(n)) == n
  {
    if n < 10 {
      assert Numeral(n)[..0] == "";
    } else {
      ValueOfNumeral(n / 10);
      var s := Numeral(n);
      assert s[..|s| - 1] == Numeral(n / 10);
    }
  }

  lemma {:induction false} ValueOfZeros(k: nat, s: string)
    ensures Value(Zeros(k) + s) == Value(s)
    decreases |s|, k
  {
    if s == "" {
      assert Zeros(k) + s == Zeros(k);
      if k > 0 {
        ZerosSnoc(k - 1);
        var z := Zeros(k);
        assert z[..k - 1] == Zeros(k - 1) && Zeros(k - 1) + "" == Zeros(k - 1);
        ValueOfZeros(k - 1, s);
      }
    } else {
      var t := Zeros(k) + s;
      assert t[..|t| - 1] == Zeros(k) + s[..|s| - 1];
      ValueOfZeros(k, s[..|s| - 1]);
    }
  }

  lemma {:induction false} ZerosSnoc(k: nat)
    ensures Zeros(k + 1) == Zeros(k) + "0"
  {
    if k > 0 {
      ZerosSnoc(k - 1);
      assert "0" + (Zeros(k - 1) + "0") == ("0" + Zeros(k - 1)) + "0";
    }
  }

  lemma ValueOfPadded(n: nat)
    ensures Value(Padded(n)) == n
  {
    ValueOfNumeral(n);
    ValueOfZeros(4 - (if |Numeral(n)| < 4 then |Numeral(n)| else 4), Numeral(n));
  }

  // ----- printing and parsing

  const PREFIX := "wliq-"

  function IntentName(i: Intent): string {
    match i case Entry => "entry" case Exit => "exit" case Flatten => "flatten"
  }

  function Key(date: string, symbol: string, intent: Intent): string {
    date + "-" + symbol + "-" + IntentName(intent)
  }

  function Print(key: string, number: nat): string {
    PREFIX + key + "-" + Padded(number)
  }

  /** Where `rsplit("-", 1)` cuts, if anywhere. */
  function LastDash(s: string): (r: Option<nat>)
    ensures r.Some? ==> r.value < |s| && s[r.value] == '-' && forall i :: r.value < i < |s| ==> s[i] != '-'
    ensures r.None? ==> '-' !in s
  {
    if s == "" then None
    else if s[|s| - 1] == '-' then Some(|s| - 1)
    else LastDash(s[..|s| - 1])
  }

  function RemovePrefix(s: string): string {
    if |s| >= |PREFIX| && s[..|PREFIX|] == PREFIX then s[|PREFIX|..] else s
  }

  /** `seq_key` of a journal row. */
  function SeqKey(coid: string): Option<string> {
    match LastDash(coid)
    case None => None
    case Some(i) => Some(RemovePrefix(coid[..i]))
  }

  /** `seq` of a journal row. */
  function SeqOf(coid: string): nat {
    match LastDash(coid)
    case None => 0
    case Some(i) =>
      var tail := coid[i + 1..];
      if tail != "" && AllDigits(tail) then Value(tail) else 0
  }

  /** Parsing a printed id gives back its key and number, however many digits the number has. */
  lemma ParsePrint(key: string, n: nat)
    ensures SeqKey(Print(key, n)) == Some(key) && SeqOf(Print(key, n)) == n
    ensures Print(key, n) != ""
  {
    var id, pad := Print(key, n), Padded(n);
    var cut := |id| - |pad| - 1;
    assert id[cut] == '-';
    assert id[cut + 1..] == pad;
    assert forall i :: cut < i < |id| ==> id[i] == pad[i - cut - 1] && IsDigit(pad[i - cut - 1]);
    assert LastDash(id) == Some(cut);
    assert id[..cut] == PREFIX + key;
    assert (PREFIX + key)[..|PREFIX|] == PREFIX && (PREFIX + key)[|PREFIX|..] == key;
    ValueOfPadded(n);
  }

  lemma PrintInjective(k: string, n: nat, k': string, n': nat)
    ensures Print(k, n) == Print(k', n') <==> k == k' && n == n'
  {
    ParsePrint(k, n);
    ParsePrint(k', n');
  }

  /** ISO dates have ten characters, so a key determines its date, symbol and intent. */
  lemma KeyInjective(d: string, s: string, i: Intent, d': string, s': string, i': Intent)
    requires |d| == |d'| == 10
    ensures Key(d, s, i) == Key(d', s', i') <==> d == d' && s == s' && i == i'
  {
    var a, b := Key(d, s, i), Key(d', s', i');
    if a == b {
      assert a[..10] == d && b[..10] == d';
      assert a[|a| - 1] == IntentName(i)[|IntentName(i)| - 1] && b[|b| - 1] == IntentName(i')[|IntentName(i')| - 1];
      assert a[|a| - 2] == IntentName(i)[|IntentName(i)| - 2] && b[|b| - 2] == IntentName(i')[|IntentName(i')| - 2];
      assert i == i';
      assert s == a[11..|a| - |IntentName(i)| - 1] && s' == b[11..|b| - |IntentName(i)| - 1];
    }
  }

  lemma NumeralsPadded()
    ensures Padded(7) == "0007" && Padded(12345) == "12345"
  {
    assert Zeros(3) == "0" + Zeros(2) && Zeros(2) == "0" + Zeros(1) && Zeros(1) == "0" + Zeros(0);
    assert Numeral(7) == "7" && Numeral(1) == "1" && Numeral(12) == "12" && Numeral(123) == "123";
    assert Numeral(1234) == "1234";
  }

  /** The format, spelled out: date, symbol, kind of order, and the number with four digits at least. */
  lemma IdFormat(date: string, symbol: string)
    ensures Print(Key(date, symbol, Entry), 7) == "wliq-" + (date + "-" + symbol + "-entry") + "-" + "0007"
    ensures Print(Key(date, symbol, Exit), 12345) == "wliq-" + (date + "-" + symbol + "-exit") + "-" + "12345"
    ensures Key(date, symbol, Flatten) == date + "-" + symbol + "-flatten"
  {
    hide Padded;
    NumeralsPadded();
  }

  // ----- the counters

  function Counter(seqs: map<string, nat>, key: string): nat {
    if key in seqs then seqs[key] else 0
  }

  /** What `_load` does to the counters for one journal row. */
  function Count(seqs: map<string, nat>, coid: string): map<string, nat> {
    match SeqKey(coid)
    case None => seqs
    case Some(k) => seqs[k := if Counter(seqs, k) >= SeqOf(coid) then Counter(seqs, k) else SeqOf(coid)]
  }

  function LoadCounters(coids: seq<string>): map<string, nat> {
    if coids == [] then map[] else Count(LoadCounters(coids[..|coids| - 1]), coids[|coids| - 1])
  }

  /** The counters have caught up with an id. */
  predicate Covered(seqs: map<string, nat>, coid: string) {
    SeqKey(coid).Some? ==> SeqOf(coid) <= Counter(seqs, SeqKey(coid).value)
  }

  lemma {:induction false} LoadCovers(coids: seq<string>)
    ensures forall c :: c in coids ==> Covered(LoadCounters(coids), c)
  {
    if coids != [] {
      var front, last := coids[..|coids| - 1], coids[|coids| - 1];
      LoadCovers(front);
      forall c | c in coids ensures Covered(LoadCounters(coids), c) {
        if c != last {
          assert c in front;
        }
      }
    }
  }

  // ----- runs of issue, record and restart

  /** The file, the in-memory counters, and the ids handed out since the process started. */
  datatype IdState = IdState(file: seq<string>, seqs: map<string, nat>, issued: set<string>)

  datatype IdEvent = Issue(key: string) | Record(coid: string) | Restart

  function NextId(seqs: map<string, nat>, key: string): string {
    Print(key, Counter(seqs, key) + 1)
  }

  function IdStep(s: IdState, e: IdEvent): IdState {
    match e
    case Issue(key) => s.(seqs := s.seqs[key := Counter(s.seqs, key) + 1], issued := s.issued + {NextId(s.seqs, key)})
    case Record(coid) => s.(file := s.file + [coid])
    case Restart => IdState(s.file, LoadCounters(s.file), {})
  }

  /** The engine only records orders whose id it issued, and later events of orders already on file. */
  predicate Allowed(s: IdState, e: IdEvent) {
    e.Record? ==> e.coid in s.issued || e.coid in s.file
  }

  predicate AllowedRun(s: IdState, run: seq<IdEvent>)
    decreases |run|
  {
    run == [] || (Allowed(s, run[0]) && AllowedRun(IdStep(s, run[0]), run[1..]))
  }

  function IdRun(s: IdState, run: seq<IdEvent>): IdState
    decreases |run|
  {
    if run == [] then s else IdRun(IdStep(s, run[0]), run[1..])
  }

  ghost predicate IdInv(s: IdState) {
    && (forall c :: c in s.file ==> Covered(s.seqs, c))
    && (forall c :: c in s.issued ==> Covered(s.seqs, c))
  }

  lemma IdStepKeepsInv(s: IdState, e: IdEvent)
    requires IdInv(s) && Allowed(s, e)
    ensures IdInv(IdStep(s, e))
  {
    hide Print, SeqKey, SeqOf, LoadCounters;
    match e
    case Issue(key) => ParsePrint(key, Counter(s.seqs, key) + 1);
    case Record(_) =>
    case Restart => LoadCovers(s.file);
  }

  lemma FreshId(s: IdState, key: string)
    requires IdInv(s)
    ensures NextId(s.seqs, key) !in s.file && NextId(s.seqs, key) !in s.issued
  {
    ParsePrint(key, Counter(s.seqs, key) + 1);
  }

  /**
   However issuing, recording and restarts interleave, the next id was neither recorded by any process nor
   issued by this one, so the duplicate guard on the entry path never fires.
   */
  lemma {:induction false} IdsNeverRepeat(s: IdState, run: seq<IdEvent>, key: string)
    requires IdInv(s) && AllowedRun(s, run)
    ensures var t := IdRun(s, run);
            IdInv(t) && NextId(t.seqs, key) !in t.file && NextId(t.seqs, key) !in t.issued
    decreases |run|
  {
    if run == [] {
      FreshId(s, key);
    } else {
      IdStepKeepsInv(s, run[0]);
      IdsNeverRepeat(IdStep(s, run[0]), run[1..], key);
    }
  }

  function Issues(keys: seq<string>): seq<IdEvent> { seq(|keys|, i requires 0 <= i < |keys| => Issue(keys[i])) }

  /** Each key numbers its ids on its own and without gaps, whatever else is issued in between. */
  lemma {:induction false} NumberedInOrder(s: IdState, keys: seq<string>, key: string)
    ensures NextId(IdRun(s, Issues(keys)).seqs, key) == Print(key, Counter(s.seqs, key) + multiset(keys)[key] + 1)
    decreases |keys|
  {
    hide Print;
    if keys == [] {
      assert Issues(keys) == [];
    } else {
      assert Issues(keys)[1..] == Issues(keys[1..]);
      assert keys == [keys[0]] + keys[1..];
      NumberedInOrder(IdStep(s, Issue(keys[0])), keys[1..], key);
    }
  }

  /** Recording an id this process did not issue is not allowed for: the counters miss it until a restart. */
  lemma ForeignRecordCollides(key: string)
    ensures var s := IdStep(IdState([], map[], {}), Record(Print(key, 1)));
            NextId(s.seqs, key) in s.file && NextId(IdStep(s, Restart).seqs, key) !in s.file
  {
    var s := IdStep(IdState([], map[], {}), Record(Print(key, 1)));
    assert NextId(s.seqs, key) == Print(key, 1) == s.file[0];
    LoadCovers(s.file);
    FreshId(IdStep(s, Restart), key);
  }
}
