/**
 Finding the newest checkpoint to resume from (`crates/ferrl/src/checkpoint.rs`, `latest_checkpoint`):
 a fail-closed classification of every directory entry, in whatever order they are listed.
 */
module Discovery {
  import opened Common
  import opened Decimal
  import opened Disk
  import opened CheckpointPackage

  const ROLLOUT_LEDGER_CONTINUATION_KIND := "rollout_ledger"

  /** What is behind a directory entry. */
  datatype State = TypeUnknown | NotDirectory | Unreadable | Readable(m: Manifest)

  /** An entry; a name that is not UTF-8 is `None`, an entry the listing failed on is `Lost`. */
  datatype Entry = Lost | Entry(name: Option<string>, state: State)

  datatype Listing = Missing | Unlistable | Entries(es: seq<Entry>)

  datatype Latest = Latest(dir: string, step: U64)

  /** The error of one entry, or of the listing itself. */
  datatype Found = Answer(latest: Option<Latest>) | Refused(culprit: Option<nat>)

  // ---------------------------------------------------------------------------
  // Names
  // ---------------------------------------------------------------------------

  predicate StartsWith(s: string, prefix: string) {
    |s| >= |prefix| && s[..|prefix|] == prefix
  }

  function StripPrefix(s: string, prefix: string): Option<string> {
    if StartsWith(s, prefix) then Some(s[|prefix|..]) else None
  }

  /** Cut at the first occurrence of `sep`. */
  function SplitOnce(s: string, sep: string): Option<(string, string)> {
    if StartsWith(s, sep) then Some(("", s[|sep|..]))
    else if s == "" then None
    else
      var rest := SplitOnce(s[1..], sep);
      if rest.None? then None else Some(([s[0]] + rest.value.0, rest.value.1))
  }

  /** The digits of `step-<digits>.old-<suffix>`. */
  function AsideDigits(name: string): Option<string> {
    var rest := StripPrefix(name, "step-");
    if rest.None? then None
    else
      var parts := SplitOnce(rest.value, ".old-");
      if parts.None? || parts.value.1 == "" || parts.value.0 == "" || !AllDigits(parts.value.0) then None
      else Some(parts.value.0)
  }

  /** The digits of `step-<digits>`. */
  function FinalDigits(name: string): Option<string> {
    var rest := StripPrefix(name, "step-");
    if rest.None? || rest.value == "" || !AllDigits(rest.value) then None else rest
  }

  function StepName(step: U64): string {
    "step-" + ShowNat(step)
  }

  // ---------------------------------------------------------------------------
  // Entries
  // ---------------------------------------------------------------------------

  datatype Verdict = Skip | Abort | Malformed(step: U64) | Candidate(step: U64)

  function JudgeManifest(m: Manifest, step: U64): Verdict {
    if m.continuation.Some? then
      if m.continuation.value == ROLLOUT_LEDGER_CONTINUATION_KIND then Skip else Abort
    else if m.version == 2 || m.version == LEGACY_MOMENTUM_FORMAT_VERSION then Abort
    else if m.version != FORMAT_VERSION || m.identity.None? then Skip
    else if m.step != step then Abort
    else Candidate(step)
  }

  function Judge(e: Entry, names: set<string>): Verdict {
    if e.Lost? then Abort
    else if e.name.None? then Skip
    else
      var aside := AsideDigits(e.name.value);
      if aside.Some? then
        if !AllDigits(aside.value) || ParseU64(aside.value).None? then Abort
        else
          var step := ParseU64(aside.value).value;
          if StepName(step) in names then Skip else Malformed(step)
      else
        var final := FinalDigits(e.name.value);
        if final.None? then Skip
        else if !AllDigits(final.value) || ParseU64(final.value).None? then Abort
        else
          var step := ParseU64(final.value).value;
          match e.state
          case Readable(m) => JudgeManifest(m, step)
          case _ => Malformed(step)
  }

  function NamesOf(es: seq<Entry>): set<string> {
    set e | e in es && e.Entry? && e.name.Some? :: e.name.value
  }

  function Verdicts(es: seq<Entry>): seq<Verdict> {
    seq(|es|, i requires 0 <= i < |es| => Judge(es[i], NamesOf(es)))
  }

  /** No abort, and the newest malformed name is not newer than any candidate. */
  ghost predicate Answers(vs: seq<Verdict>, es: seq<Entry>, r: Found)
    requires |vs| == |es|
  {
    match r
    case Refused(None) => false
    case Refused(Some(i)) =>
      && i < |vs|
      && (|| (vs[i].Abort? && forall k :: 0 <= k < i ==> !vs[k].Abort?)
          || (&& vs[i].Malformed?
              && forall k :: 0 <= k < |vs| ==>
                   && !vs[k].Abort?
                   && (vs[k].Candidate? ==> vs[k].step < vs[i].step)
                   && (vs[k].Malformed? ==> vs[k].step < vs[i].step || (vs[k].step == vs[i].step && k <= i))))
    case Answer(None) => forall k :: 0 <= k < |vs| ==> vs[k].Skip?
    case Answer(Some(latest)) =>
      && (forall k :: 0 <= k < |vs| ==>
            && !vs[k].Abort?
            && (vs[k].Malformed? || vs[k].Candidate? ==> vs[k].step <= latest.step))
      && exists i :: 0 <= i < |vs| && FirstBest(vs, es, i, latest)
  }

  /** Entry `i` is the first candidate of the answer's step. */
  ghost predicate FirstBest(vs: seq<Verdict>, es: seq<Entry>, i: nat, latest: Latest)
    requires |vs| == |es|
  {
    && i < |vs| && vs[i] == Candidate(latest.step) && es[i].Entry? && es[i].name == Some(latest.dir)
    && forall k :: 0 <= k < i && vs[k].Candidate? ==> vs[k].step < latest.step
  }

  ghost predicate BestSoFar(vs: seq<Verdict>, es: seq<Entry>, i: nat, best: Option<Latest>)
    requires |vs| == |es|
  {
    && (forall k :: 0 <= k < i && k < |vs| && vs[k].Candidate? ==> best.Some? && vs[k].step <= best.value.step)
    && (best.Some? ==> exists k :: 0 <= k < i && FirstBest(vs, es, k, best.value))
  }

  /** Every malformed entry so far, in order. */
  predicate MalformedSoFar(vs: seq<Verdict>, i: nat, malformed: seq<(U64, nat)>) {
    && (forall p :: p in malformed ==> p.1 < i && p.1 < |vs| && vs[p.1] == Malformed(p.0))
    && (forall k :: 0 <= k < i && k < |vs| && vs[k].Malformed? ==> (vs[k].step, k) in malformed)
    && (forall a, b :: 0 <= a < b < |malformed| ==> malformed[a].1 < malformed[b].1)
  }

  lemma MalformedNext(vs: seq<Verdict>, i: nat, malformed: seq<(U64, nat)>)
    requires MalformedSoFar(vs, i, malformed) && i < |vs|
    ensures MalformedSoFar(vs, i + 1, if vs[i].Malformed? then malformed + [(vs[i].step, i)] else malformed)
  {
  }

  predicate CandidatesNamed(vs: seq<Verdict>, es: seq<Entry>)
    requires |vs| == |es|
  {
    forall k :: 0 <= k < |vs| && vs[k].Candidate? ==> es[k].Entry? && es[k].name.Some?
  }

  /** Go through the judged entries; stop at the first one that aborts. */
  method Scan(vs: seq<Verdict>, es: seq<Entry>)
    returns (abort: Option<nat>, best: Option<Latest>, malformed: seq<(U64, nat)>)
    requires |vs| == |es| && CandidatesNamed(vs, es)
    ensures abort.Some? ==>
              && abort.value < |vs| && vs[abort.value].Abort?
              && forall k :: 0 <= k < abort.value ==> !vs[k].Abort?
    ensures abort.None? ==> forall k :: 0 <= k < |vs| ==> !vs[k].Abort?
    ensures abort.None? ==> BestSoFar(vs, es, |vs|, best) && MalformedSoFar(vs, |vs|, malformed)
  {
    abort, best, malformed := None, None, [];
    for i := 0 to |vs|
      invariant forall k :: 0 <= k < i ==> !vs[k].Abort?
      invariant BestSoFar(vs, es, i, best)
      invariant MalformedSoFar(vs, i, malformed)
    {
      MalformedNext(vs, i, malformed);
      match vs[i]
      case Abort => return Some(i), best, malformed;
      case Malformed(step) =>
        malformed := malformed + [(step, i)];
      case Candidate(step) =>
        if best.None? || step > best.value.step {
          best := Some(Latest(es[i].name.value, step));
          assert FirstBest(vs, es, i, best.value);
        }
      case Skip =>
    }
  }

  method LatestCheckpoint(listing: Listing) returns (r: Found)
    ensures listing.Missing? ==> r == Answer(None)
    ensures listing.Unlistable? ==> r == Refused(None)
    ensures listing.Entries? ==> Answers(Verdicts(listing.es), listing.es, r)
  {
    if listing.Missing? {
      return Answer(None);
    }
    if listing.Unlistable? {
      return Refused(None);
    }
    var es := listing.es;
    var vs := Verdicts(es);
    var abort, best, malformed := Scan(vs, es);
    if abort.Some? {
      return Refused(abort);
    }
    r := Decide(vs, es, best, malformed);
  }

  /** A malformed name that is newer than every candidate cannot be passed over. */
  method Decide(vs: seq<Verdict>, es: seq<Entry>, best: Option<Latest>, malformed: seq<(U64, nat)>)
    returns (r: Found)
    requires |vs| == |es| && forall k :: 0 <= k < |vs| ==> !vs[k].Abort?
    requires BestSoFar(vs, es, |vs|, best) && MalformedSoFar(vs, |vs|, malformed)
    ensures Answers(vs, es, r)
  {
    var worst := NewestMalformed(malformed);
    if worst.Some? && (best.None? || worst.value.0 > best.value.step) {
      return Refused(Some(worst.value.1));
    }
    forall k | 0 <= k < |vs|
      ensures vs[k].Malformed? ==> worst.Some? && best.Some? && vs[k].step <= best.value.step
    {
      if vs[k].Malformed? {
        assert (vs[k].step, k) in malformed;
      }
    }
    return Answer(best);
  }

  /** The last entry of the greatest step. */
  method NewestMalformed(malformed: seq<(U64, nat)>) returns (worst: Option<(U64, nat)>)
    ensures worst.None? <==> malformed == []
    ensures worst.Some? ==> worst.value in malformed
    ensures worst.Some? ==> forall p :: p in malformed ==> p.0 <= worst.value.0
    ensures worst.Some? && (forall i, j :: 0 <= i < j < |malformed| ==> malformed[i].1 < malformed[j].1) ==>
              forall p :: p in malformed && p.0 == worst.value.0 ==> p.1 <= worst.value.1
  {
    worst := None;
    ghost var at := 0;
    for i := 0 to |malformed|
      invariant worst.None? <==> i == 0
      invariant worst.Some? ==> at < i && worst.value == malformed[at]
      invariant worst.Some? ==> forall k :: 0 <= k < i ==> malformed[k].0 <= worst.value.0
      invariant worst.Some? ==> forall k :: at < k < i ==> malformed[k].0 < worst.value.0
    {
      if worst.None? || malformed[i].0 >= worst.value.0 {
        worst := Some(malformed[i]);
        at := i;
      }
    }
  }

  // ---------------------------------------------------------------------------
  // The listing order
  // ---------------------------------------------------------------------------

  ghost predicate SameEntries(es: seq<Entry>, fs: seq<Entry>) {
    forall e :: e in es <==> e in fs
  }

  lemma Reordered(es: seq<Entry>, fs: seq<Entry>, i: nat) returns (j: nat)
    requires SameEntries(es, fs) && i < |es|
    ensures j < |fs| && fs[j] == es[i] && Verdicts(fs)[j] == Verdicts(es)[i]
  {
    assert es[i] in fs;
    j :| 0 <= j < |fs| && fs[j] == es[i];
    forall n
      ensures n in NamesOf(es) <==> n in NamesOf(fs)
    {
    }
    assert NamesOf(es) == NamesOf(fs);
  }

  lemma ReorderedRefuses(es: seq<Entry>, fs: seq<Entry>, r: Found, q: Found)
    requires SameEntries(es, fs) && Answers(Verdicts(es), es, r) && Answers(Verdicts(fs), fs, q)
    requires r.Refused?
    ensures q.Refused?
  {
    var i := r.culprit.value;
    var j := Reordered(es, fs, i);
    if q.Answer? && q.latest.Some? {
      var b :| 0 <= b < |fs| && FirstBest(Verdicts(fs), fs, b, q.latest.value);
      var a := Reordered(fs, es, b);
    }
  }

  lemma ReorderedAtMost(es: seq<Entry>, fs: seq<Entry>, r: Found, q: Found)
    requires SameEntries(es, fs) && Answers(Verdicts(es), es, r) && Answers(Verdicts(fs), fs, q)
    requires r.Answer? && q.Answer? && r.latest.Some?
    ensures q.latest.Some? && r.latest.value.step <= q.latest.value.step
  {
    var i :| 0 <= i < |es| && FirstBest(Verdicts(es), es, i, r.latest.value);
    var j := Reordered(es, fs, i);
    assert Verdicts(fs)[j] == Candidate(r.latest.value.step);
  }

  /** Whether there is an answer, and its step, do not depend on the order the directory is listed in. */
  lemma StepIsIndependentOfListing(es: seq<Entry>, fs: seq<Entry>, r: Found, q: Found)
    requires SameEntries(es, fs) && Answers(Verdicts(es), es, r) && Answers(Verdicts(fs), fs, q)
    ensures r.Refused? <==> q.Refused?
    ensures r.Answer? ==> (r.latest.None? <==> q.latest.None?)
    ensures r.Answer? && r.latest.Some? ==> r.latest.value.step == q.latest.value.step
  {
    if r.Refused? {
      ReorderedRefuses(es, fs, r, q);
    } else if q.Refused? {
      ReorderedRefuses(fs, es, q, r);
    } else {
      if r.latest.Some? { ReorderedAtMost(es, fs, r, q); }
      if q.latest.Some? { ReorderedAtMost(fs, es, q, r); }
    }
  }

  /** Entry `i` is a candidate of the greatest step. */
  ghost predicate TopCandidate(es: seq<Entry>, i: nat) {
    && i < |es| && Verdicts(es)[i].Candidate?
    && forall k :: 0 <= k < |es| && Verdicts(es)[k].Candidate? ==> Verdicts(es)[k].step <= Verdicts(es)[i].step
  }

  /** All candidates of the greatest step are listed under one name. */
  ghost predicate OneSpelling(es: seq<Entry>) {
    forall i: nat, j: nat :: TopCandidate(es, i) && TopCandidate(es, j) ==> es[i].name == es[j].name
  }

  lemma AnswerIsTop(es: seq<Entry>, r: Found) returns (i: nat)
    requires Answers(Verdicts(es), es, r) && r.Answer? && r.latest.Some?
    ensures TopCandidate(es, i) && Verdicts(es)[i] == Candidate(r.latest.value.step)
    ensures es[i].name == Some(r.latest.value.dir)
  {
    i :| 0 <= i < |es| && FirstBest(Verdicts(es), es, i, r.latest.value);
  }

  /** With one spelling of the greatest step the answer does not depend on the order either. */
  lemma OneSpellingFixesDirectory(es: seq<Entry>, fs: seq<Entry>, r: Found, q: Found)
    requires SameEntries(es, fs) && Answers(Verdicts(es), es, r) && Answers(Verdicts(fs), fs, q)
    requires r.Answer? && OneSpelling(es)
    ensures q == r
  {
    StepIsIndependentOfListing(es, fs, r, q);
    if r.latest.Some? {
      var i := AnswerIsTop(es, r);
      var j := AnswerIsTop(fs, q);
      var k := Reordered(fs, es, j);
      assert TopCandidate(es, k);
    }
  }

  function MovedFirst(es: seq<Entry>, k: nat): seq<Entry>
    requires k < |es|
  {
    [es[k]] + es[..k] + es[k + 1..]
  }

  lemma MovedFirstSame(es: seq<Entry>, k: nat)
    requires k < |es|
    ensures multiset(MovedFirst(es, k)) == multiset(es) && SameEntries(es, MovedFirst(es, k))
  {
    assert es == es[..k] + [es[k]] + es[k + 1..];
    assert forall e :: e in es <==> multiset(es)[e] > 0;
    assert forall e :: e in MovedFirst(es, k) <==> multiset(MovedFirst(es, k))[e] > 0;
  }

  /** Listing another spelling of the greatest step first makes that directory the answer. */
  lemma SecondSpellingChangesDirectory(es: seq<Entry>, r: Found, k: nat)
    requires Answers(Verdicts(es), es, r) && r.Answer? && r.latest.Some?
    requires TopCandidate(es, k) && es[k].name != Some(r.latest.value.dir)
    ensures multiset(MovedFirst(es, k)) == multiset(es)
    ensures es[k].name.Some?
    ensures var other := Answer(Some(Latest(es[k].name.value, r.latest.value.step)));
            other != r && Answers(Verdicts(MovedFirst(es, k)), MovedFirst(es, k), other)
  {
    var fs := MovedFirst(es, k);
    MovedFirstSame(es, k);
    var i := AnswerIsTop(es, r);
    assert NamesOf(es) == NamesOf(fs) by {
      forall n
        ensures n in NamesOf(es) <==> n in NamesOf(fs)
      {
      }
    }
    assert Verdicts(fs)[0] == Verdicts(es)[k];
    var latest := Latest(es[k].name.value, r.latest.value.step);
    assert FirstBest(Verdicts(fs), fs, 0, latest);
    forall j | 0 <= j < |fs|
      ensures !Verdicts(fs)[j].Abort?
      ensures Verdicts(fs)[j].Malformed? || Verdicts(fs)[j].Candidate? ==> Verdicts(fs)[j].step <= latest.step
    {
      var back := Reordered(fs, es, j);
    }
  }

  /** Every listing of the same entries is answered in the same way. */
  ghost predicate OrderFree(es: seq<Entry>, r: Found) {
    forall fs, q :: multiset(fs) == multiset(es) && Answers(Verdicts(fs), fs, q) ==> q == r
  }

  lemma PermutedSame(es: seq<Entry>, fs: seq<Entry>)
    requires multiset(es) == multiset(fs)
    ensures SameEntries(es, fs)
  {
    assert forall e :: e in es <==> multiset(es)[e] > 0;
    assert forall e :: e in fs <==> multiset(fs)[e] > 0;
  }

  /** The answer depends on the listing order exactly if the greatest step is listed under two names. */
  lemma OrderFreeExactly(es: seq<Entry>, r: Found)
    requires Answers(Verdicts(es), es, r) && r.Answer?
    ensures OrderFree(es, r) <==> OneSpelling(es)
  {
    if OneSpelling(es) {
      forall fs, q | multiset(fs) == multiset(es) && Answers(Verdicts(fs), fs, q)
        ensures q == r
      {
        PermutedSame(es, fs);
        OneSpellingFixesDirectory(es, fs, r, q);
      }
    } else {
      var i: nat, j: nat :| TopCandidate(es, i) && TopCandidate(es, j) && es[i].name != es[j].name;
      assert Verdicts(es)[i].Candidate?;
      var a := AnswerIsTop(es, r);
      var k := if es[i].name != es[a].name then i else j;
      SecondSpellingChangesDirectory(es, r, k);
    }
  }

  /** Every listed step is written without leading zeros, as the writers do. */
  ghost predicate NoLeadingZeros(es: seq<Entry>) {
    forall name :: name in NamesOf(es) && FinalDigits(name).Some? ==> Plain(FinalDigits(name).value)
  }

  lemma FinalNameIsItsDigits(name: string)
    requires FinalDigits(name).Some?
    ensures name == "step-" + FinalDigits(name).value
  {
    assert name == name[..5] + name[5..];
  }

  lemma CandidateName(es: seq<Entry>, i: nat)
    requires NoLeadingZeros(es) && i < |es| && Verdicts(es)[i].Candidate?
    ensures es[i].name == Some(StepName(Verdicts(es)[i].step))
  {
    var name := es[i].name.value;
    assert name in NamesOf(es);
    FinalNameIsItsDigits(name);
    PlainIsShown(FinalDigits(name).value);
  }

  /** Without leading zeros in the listed steps no order matters. */
  lemma NoLeadingZerosOneSpelling(es: seq<Entry>)
    requires NoLeadingZeros(es)
    ensures OneSpelling(es)
  {
    forall i: nat, j: nat | TopCandidate(es, i) && TopCandidate(es, j)
      ensures es[i].name == es[j].name
    {
      CandidateName(es, i);
      CandidateName(es, j);
    }
  }

  /** Both spellings name the same step. */
  lemma SevenHasTwoSpellings(m: Manifest, names: set<string>)
    requires IsOrdinary(m, 7)
    ensures Judge(Entry(Some("step-7"), Readable(m)), names) == Candidate(7)
    ensures Judge(Entry(Some("step-007"), Readable(m)), names) == Candidate(7)
  {
    DigitsDoNotSplit("7");
    DigitsDoNotSplit("007");
    assert "step-7"[5..] == "7" && "step-007"[5..] == "007";
    assert "007"[..2] == "00" && "00"[..1] == "0" && "0"[..0] == "" && "7"[..0] == "";
    assert DecimalValue("0") == 0 && DecimalValue("00") == 0;
  }

  /** A directory with both spellings of step 7: each order of the two returns its own first. */
  lemma TwoSpellingsOfSeven(m: Manifest)
    requires IsOrdinary(m, 7)
    ensures var plain, padded := Entry(Some("step-7"), Readable(m)), Entry(Some("step-007"), Readable(m));
            && Answers(Verdicts([plain, padded]), [plain, padded], Answer(Some(Latest("step-7", 7))))
            && Answers(Verdicts([padded, plain]), [padded, plain], Answer(Some(Latest("step-007", 7))))
  {
    var plain, padded := Entry(Some("step-7"), Readable(m)), Entry(Some("step-007"), Readable(m));
    TwoCandidates(plain, padded, "step-7", m);
    TwoCandidates(padded, plain, "step-007", m);
  }

  lemma TwoCandidates(e: Entry, f: Entry, name: string, m: Manifest)
    requires IsOrdinary(m, 7) && e == Entry(Some(name), Readable(m))
    requires {e, f} == {Entry(Some("step-7"), Readable(m)), Entry(Some("step-007"), Readable(m))}
    ensures Answers(Verdicts([e, f]), [e, f], Answer(Some(Latest(name, 7))))
  {
    SevenHasTwoSpellings(m, NamesOf([e, f]));
    assert f in {e, f} && e in {e, f};
    assert FirstBest(Verdicts([e, f]), [e, f], 0, Latest(name, 7));
  }

  // ---------------------------------------------------------------------------
  // What the writers leave behind is never silently skipped
  // ---------------------------------------------------------------------------

  predicate Listed(es: seq<Entry>, name: string) {
    name in NamesOf(es)
  }

  /** The suffixes of hidden siblings, by writer. */
  type Suffixes = nat -> string

  /**
   The listing shows the names of the destination of step `s`: the canonical package and every aside.
   Anything else may be listed too.
   */
  ghost predicate Shows(es: seq<Entry>, s: U64, n: Names, suffix: Suffixes) {
    && (n.canon.Some? ==> exists e :: e in es && ShowsPackage(e, s))
    && (n.canon.None? ==> !Listed(es, StepName(s)))
    && (forall a :: a in n.asides ==> suffix(a) != "" && Listed(es, StepName(s) + ".old-" + suffix(a)))
  }

  /**
   The canonical name as the listing finds it: if its manifest can be read, it is the one saved for that
   step; it may just as well be unreadable, of unknown type or no directory.
   */
  predicate ShowsPackage(e: Entry, s: U64) {
    e.Entry? && e.name == Some(StepName(s)) && (e.state.Readable? ==> IsOrdinary(e.state.m, s))
  }

  predicate IsOrdinary(m: Manifest, s: U64) {
    m.version == FORMAT_VERSION && m.identity.Some? && m.continuation.None? && m.step == s
  }

  lemma OtherStart(s: string, prefix: string)
    requires s != "" && prefix != "" && s[0] != prefix[0]
    ensures !StartsWith(s, prefix)
  {
    if |s| >= |prefix| {
      assert s[..|prefix|][0] == s[0];
    }
  }

  lemma {:induction false} SplitDigits(digits: string, suffix: string)
    requires AllDigits(digits)
    ensures SplitOnce(digits + ".old-" + suffix, ".old-") == Some((digits, suffix))
  {
    var s := digits + ".old-" + suffix;
    if digits == "" {
      assert s[..5] == ".old-" && s[5..] == suffix;
    } else {
      assert s[0] == digits[0] != '.';
      assert s[1..] == digits[1..] + ".old-" + suffix;
      SplitDigits(digits[1..], suffix);
      OtherStart(s, ".old-");
      assert [digits[0]] + digits[1..] == digits;
    }
  }

  lemma {:induction false} DigitsDoNotSplit(digits: string)
    requires AllDigits(digits)
    ensures SplitOnce(digits, ".old-") == None
  {
    if digits != "" {
      DigitsDoNotSplit(digits[1..]);
      OtherStart(digits, ".old-");
    }
  }

  lemma FinalNameParses(s: U64)
    ensures AsideDigits(StepName(s)).None? && FinalDigits(StepName(s)) == Some(ShowNat(s))
    ensures ParseU64(ShowNat(s)) == Some(s)
  {
    assert StepName(s)[..5] == "step-" && StepName(s)[5..] == ShowNat(s);
    DigitsDoNotSplit(ShowNat(s));
  }

  lemma AsideNameParses(s: U64, suffix: string)
    requires suffix != ""
    ensures AsideDigits(StepName(s) + ".old-" + suffix) == Some(ShowNat(s))
  {
    var name := StepName(s) + ".old-" + suffix;
    assert name[..5] == "step-" && name[5..] == ShowNat(s) + ".old-" + suffix;
    SplitDigits(ShowNat(s), suffix);
  }

  /** A destination that logically holds a package is a candidate, or makes its step count as malformed. */
  lemma DestinationCounts(es: seq<Entry>, s: U64, n: Names, contents: map<Ino, Content>, suffix: Suffixes)
    returns (i: nat)
    requires Good(n, contents) && Logical(n, contents).Present? && Shows(es, s, n, suffix)
    ensures i < |es| && (Verdicts(es)[i] == Candidate(s) || Verdicts(es)[i] == Malformed(s))
  {
    FinalNameParses(s);
    if n.canon.Some? {
      var e :| e in es && ShowsPackage(e, s);
      i :| 0 <= i < |es| && es[i] == e;
    } else {
      var a :| a in n.asides;
      AsideNameParses(s, suffix(a));
      assert Listed(es, StepName(s) + ".old-" + suffix(a));
      var e :| e in es && e.Entry? && e.name.Some? && e.name.value == StepName(s) + ".old-" + suffix(a);
      i :| 0 <= i < |es| && es[i] == e;
    }
  }

  /**
   In every state the ordinary writer can leave, after any crash: if the destination of step `s` logically
   holds a package, discovery either refuses or returns a step that is at least `s`.
   */
  lemma NeverSilentlyReplays(es: seq<Entry>, r: Found, s: U64, d: Disk, k: nat, allowed: set<Logic>, suffix: Suffixes)
    requires SafeFor(d, allowed) && k <= |d.queue|
    requires Logical(NamesAt(d, k), d.contents).Present? && Shows(es, s, NamesAt(d, k), suffix)
    requires Answers(Verdicts(es), es, r)
    ensures r.Answer? ==> r.latest.Some? && r.latest.value.step >= s
  {
    var i := DestinationCounts(es, s, NamesAt(d, k), d.contents, suffix);
  }
}
