/**
 What discovery answers and refuses, in terms of the directory entries alone
 (`crates/ferrl/src/checkpoint.rs`, `latest_checkpoint`): names are spelled out, manifests are described by
 their fields, and nothing is said through the classification that the scan uses.
 */
module DiscoveryMeaning {
  import opened Common
  import opened Decimal
  import opened CheckpointPackage
  import opened Discovery

  // ---------------------------------------------------------------------------
  // Names
  // ---------------------------------------------------------------------------

  /** `step-<digits>`, a checkpoint's final name. */
  predicate IsFinalName(name: string, digits: string) {
    name == "step-" + digits && digits != "" && AllDigits(digits)
  }

  /** `step-<digits>.old-<suffix>`, a prior package moved aside. */
  predicate IsAsideName(name: string, digits: string, suffix: string) {
    name == "step-" + digits + ".old-" + suffix && digits != "" && AllDigits(digits) && suffix != ""
  }

  lemma Regroup(c: char, a: string, sep: string, b: string)
    ensures [c] + (a + sep + b) == [c] + a + sep + b
  {
  }

  lemma Uncons(s: string)
    requires s != ""
    ensures s == [s[0]] + s[1..]
  {
  }

  lemma {:induction false} SplitJoins(s: string, sep: string)
    requires SplitOnce(s, sep).Some?
    ensures s == SplitOnce(s, sep).value.0 + sep + SplitOnce(s, sep).value.1
    decreases |s|
  {
    if StartsWith(s, sep) {
      assert s == "" + s[..|sep|] + s[|sep|..];
    } else {
      SplitJoins(s[1..], sep);
      var rest := SplitOnce(s[1..], sep).value;
      Uncons(s);
      Regroup(s[0], rest.0, sep, rest.1);
    }
  }

  lemma StripJoins(s: string, prefix: string)
    requires StripPrefix(s, prefix).Some?
    ensures s == prefix + StripPrefix(s, prefix).value
  {
    assert s == s[..|prefix|] + s[|prefix|..];
  }

  lemma StripTakesOff(prefix: string, rest: string)
    ensures StripPrefix(prefix + rest, prefix) == Some(rest)
  {
    assert (prefix + rest)[..|prefix|] == prefix && (prefix + rest)[|prefix|..] == rest;
  }

  /** The scan recognises exactly the aside names. */
  lemma AsideNamesExactly(name: string, digits: string)
    ensures AsideDigits(name) == Some(digits) <==> exists suffix :: IsAsideName(name, digits, suffix)
  {
    if AsideDigits(name) == Some(digits) {
      StripJoins(name, "step-");
      var rest := StripPrefix(name, "step-").value;
      SplitJoins(rest, ".old-");
      var suffix := SplitOnce(rest, ".old-").value.1;
      assert "step-" + (digits + ".old-" + suffix) == "step-" + digits + ".old-" + suffix;
      assert IsAsideName(name, digits, suffix);
    }
    if suffix :| IsAsideName(name, digits, suffix) {
      assert "step-" + (digits + ".old-" + suffix) == "step-" + digits + ".old-" + suffix;
      StripTakesOff("step-", digits + ".old-" + suffix);
      SplitDigits(digits, suffix);
    }
  }

  /** The scan recognises exactly the final names, and none of them as an aside. */
  lemma FinalNamesExactly(name: string, digits: string)
    ensures FinalDigits(name) == Some(digits) <==> IsFinalName(name, digits)
    ensures IsFinalName(name, digits) ==> AsideDigits(name).None?
  {
    if FinalDigits(name) == Some(digits) {
      StripJoins(name, "step-");
    }
    if IsFinalName(name, digits) {
      StripTakesOff("step-", digits);
      DigitsDoNotSplit(digits);
    }
  }

  // ---------------------------------------------------------------------------
  // Entries
  // ---------------------------------------------------------------------------

  /** The entry has the final name of step `s`, in some spelling. */
  ghost predicate FinalOf(e: Entry, s: nat) {
    e.Entry? && e.name.Some? && exists d :: IsFinalName(e.name.value, d) && DecimalValue(d) == s
  }

  /** The entry is an aside of step `s`. */
  ghost predicate AsideOf(e: Entry, s: nat) {
    e.Entry? && e.name.Some? && exists d, suffix :: IsAsideName(e.name.value, d, suffix) && DecimalValue(d) == s
  }

  /** A complete ordinary v4 package of step `s`. */
  ghost predicate HoldsPackage(e: Entry, s: nat) {
    && FinalOf(e, s) && s <= U64_MAX && e.state.Readable?
    && var m := e.state.m;
       m.version == 4 && m.identity.Some? && m.continuation.None? && m.step == s
  }

  /** A readable manifest at a final name that discovery must not pass over. */
  ghost predicate Forbidden(e: Entry, s: nat) {
    && FinalOf(e, s) && e.Entry? && e.state.Readable?
    && var m := e.state.m;
       || (m.continuation.Some? && m.continuation.value != "rollout_ledger")
       || (m.continuation.None? && (m.version == 2 || m.version == 3))
       || (m.continuation.None? && m.version == 4 && m.identity.Some? && m.step != s)
  }

  /** An entry that could not be listed, a step beyond `u64`, or a forbidden manifest. */
  ghost predicate Fatal(e: Entry) {
    || e.Lost?
    || (exists s :: s > U64_MAX && (FinalOf(e, s) || AsideOf(e, s)))
    || (exists s :: Forbidden(e, s))
  }

  /** A final name without a readable manifest, or an aside whose canonical name is not listed. */
  ghost predicate Suspicious(e: Entry, s: nat, names: set<string>) {
    && s <= U64_MAX
    && (|| (FinalOf(e, s) && e.Entry? && !e.state.Readable?)
        || (AsideOf(e, s) && "step-" + ShowNat(s) !in names))
  }

  lemma FinalIsUnique(e: Entry, s: nat, digits: string)
    requires FinalOf(e, s) && e.name.Some? && FinalDigits(e.name.value) == Some(digits)
    ensures DecimalValue(digits) == s
  {
    var d :| IsFinalName(e.name.value, d) && DecimalValue(d) == s;
    FinalNamesExactly(e.name.value, d);
  }

  lemma AsideIsUnique(e: Entry, s: nat, digits: string)
    requires AsideOf(e, s) && e.name.Some? && AsideDigits(e.name.value) == Some(digits)
    ensures DecimalValue(digits) == s
  {
    var d, suffix :| IsAsideName(e.name.value, d, suffix) && DecimalValue(d) == s;
    AsideNamesExactly(e.name.value, d);
  }

  /** An entry with an aside's name. */
  lemma JudgedAside(e: Entry, names: set<string>, digits: string)
    requires e.Entry? && e.name.Some? && AsideDigits(e.name.value) == Some(digits)
    ensures AsideOf(e, DecimalValue(digits)) && forall s :: !FinalOf(e, s)
    ensures forall s :: AsideOf(e, s) ==> s == DecimalValue(digits)
  {
    AsideNamesExactly(e.name.value, digits);
    forall s | FinalOf(e, s)
      ensures false
    {
      var d :| IsFinalName(e.name.value, d) && DecimalValue(d) == s;
      FinalNamesExactly(e.name.value, d);
    }
    forall s | AsideOf(e, s)
      ensures s == DecimalValue(digits)
    {
      AsideIsUnique(e, s, digits);
    }
  }

  /** An entry with a final name. */
  lemma JudgedFinal(e: Entry, names: set<string>, digits: string)
    requires e.Entry? && e.name.Some? && FinalDigits(e.name.value) == Some(digits)
    ensures AsideDigits(e.name.value).None? && FinalOf(e, DecimalValue(digits)) && forall s :: !AsideOf(e, s)
    ensures forall s :: FinalOf(e, s) ==> s == DecimalValue(digits)
  {
    FinalNamesExactly(e.name.value, digits);
    forall s | AsideOf(e, s)
      ensures false
    {
      var d, suffix :| IsAsideName(e.name.value, d, suffix) && DecimalValue(d) == s;
      AsideNamesExactly(e.name.value, d);
    }
    forall s | FinalOf(e, s)
      ensures s == DecimalValue(digits)
    {
      FinalIsUnique(e, s, digits);
    }
  }

  lemma JudgedOther(e: Entry)
    requires e.Entry? && (e.name.None? || (AsideDigits(e.name.value).None? && FinalDigits(e.name.value).None?))
    ensures forall s :: !AsideOf(e, s) && !FinalOf(e, s)
  {
    forall s | AsideOf(e, s)
      ensures false
    {
      var d, suffix :| IsAsideName(e.name.value, d, suffix) && DecimalValue(d) == s;
      AsideNamesExactly(e.name.value, d);
    }
    forall s | FinalOf(e, s)
      ensures false
    {
      var d :| IsFinalName(e.name.value, d) && DecimalValue(d) == s;
      FinalNamesExactly(e.name.value, d);
    }
  }

  /** At a final name, what is fatal is the step or the manifest. */
  lemma FatalFinal(e: Entry, names: set<string>, digits: string)
    requires e.Entry? && e.name.Some? && FinalDigits(e.name.value) == Some(digits)
    ensures Fatal(e) <==> DecimalValue(digits) > U64_MAX || Forbidden(e, DecimalValue(digits))
  {
    JudgedFinal(e, names, digits);
    if s :| s > U64_MAX && (FinalOf(e, s) || AsideOf(e, s)) {
      assert s == DecimalValue(digits);
    }
    if s :| Forbidden(e, s) {
      assert s == DecimalValue(digits);
    }
  }

  lemma FatalAside(e: Entry, names: set<string>, digits: string)
    requires e.Entry? && e.name.Some? && AsideDigits(e.name.value) == Some(digits)
    ensures Fatal(e) <==> DecimalValue(digits) > U64_MAX
  {
    JudgedAside(e, names, digits);
    if s :| s > U64_MAX && (FinalOf(e, s) || AsideOf(e, s)) {
      assert s == DecimalValue(digits);
    }
  }

  /** The verdict on an entry, from its name and its manifest. */
  lemma JudgedExactly(e: Entry, names: set<string>)
    ensures Judge(e, names).Abort? <==> Fatal(e)
    ensures forall s: U64 :: Judge(e, names) == Malformed(s) <==> Suspicious(e, s, names)
    ensures forall s: U64 :: Judge(e, names) == Candidate(s) <==> HoldsPackage(e, s)
  {
    if e.Lost? {
    } else if e.name.None? {
      JudgedOther(e);
    } else if AsideDigits(e.name.value).Some? {
      JudgedAside(e, names, AsideDigits(e.name.value).value);
      FatalAside(e, names, AsideDigits(e.name.value).value);
    } else if FinalDigits(e.name.value).Some? {
      JudgedFinal(e, names, FinalDigits(e.name.value).value);
      FatalFinal(e, names, FinalDigits(e.name.value).value);
    } else {
      JudgedOther(e);
    }
  }

  /** The verdict on a listed entry is one of the verdicts. */
  lemma VerdictOf(es: seq<Entry>, e: Entry) returns (k: nat)
    requires e in es
    ensures k < |es| && es[k] == e && Verdicts(es)[k] == Judge(e, NamesOf(es))
    ensures Verdicts(es)[k].Abort? <==> Fatal(e)
    ensures forall s: U64 :: Verdicts(es)[k] == Malformed(s) <==> Suspicious(e, s, NamesOf(es))
    ensures forall s: U64 :: Verdicts(es)[k] == Candidate(s) <==> HoldsPackage(e, s)
  {
    k :| 0 <= k < |es| && es[k] == e;
    JudgedExactly(e, NamesOf(es));
  }

  // ---------------------------------------------------------------------------
  // Answers
  // ---------------------------------------------------------------------------

  /** An entry that is suspicious for a step beyond every complete package listed. */
  ghost predicate NewerThanAll(es: seq<Entry>, e: Entry) {
    exists s: U64 :: Suspicious(e, s, NamesOf(es)) && forall f, t: U64 :: f in es && HoldsPackage(f, t) ==> t < s
  }

  lemma RefusalHasReason(es: seq<Entry>, r: Found)
    requires Answers(Verdicts(es), es, r) && r.Refused?
    ensures (exists e :: e in es && Fatal(e)) || (exists e :: e in es && NewerThanAll(es, e))
  {
    var i := r.culprit.value;
    var e := es[i];
    JudgedExactly(e, NamesOf(es));
    assert e in es;
    if Verdicts(es)[i].Malformed? {
      var s := Verdicts(es)[i].step;
      assert Suspicious(e, s, NamesOf(es));
      forall f, t: U64 | f in es && HoldsPackage(f, t)
        ensures t < s
      {
        var k := VerdictOf(es, f);
        assert Verdicts(es)[k] == Candidate(t);
      }
      assert NewerThanAll(es, e);
    }
  }

  lemma FatalRefuses(es: seq<Entry>, r: Found, e: Entry)
    requires Answers(Verdicts(es), es, r) && e in es && Fatal(e)
    ensures r.Refused?
  {
    var k := VerdictOf(es, e);
  }

  /** An answer names a directory that holds a complete package of its step, the greatest one listed. */
  lemma AnswerHoldsPackage(es: seq<Entry>, r: Found)
    requires Answers(Verdicts(es), es, r) && r.Answer? && r.latest.Some?
    ensures exists e :: e in es && HoldsPackage(e, r.latest.value.step) && e.name == Some(r.latest.value.dir)
    ensures forall f, t: U64 :: f in es && HoldsPackage(f, t) ==> t <= r.latest.value.step
  {
    var i :| 0 <= i < |es| && FirstBest(Verdicts(es), es, i, r.latest.value);
    JudgedExactly(es[i], NamesOf(es));
    forall f, t: U64 | f in es && HoldsPackage(f, t)
      ensures t <= r.latest.value.step
    {
      JudgedExactly(f, NamesOf(es));
      var k :| 0 <= k < |es| && es[k] == f;
      assert Verdicts(es)[k] == Candidate(t);
    }
  }

  lemma NewerRefuses(es: seq<Entry>, r: Found, e: Entry)
    requires Answers(Verdicts(es), es, r) && e in es && NewerThanAll(es, e)
    ensures r.Refused?
  {
    var s: U64 :| Suspicious(e, s, NamesOf(es)) && forall f, t: U64 :: f in es && HoldsPackage(f, t) ==> t < s;
    var k := VerdictOf(es, e);
    assert Verdicts(es)[k] == Malformed(s);
    if r.Answer? && r.latest.Some? {
      AnswerHoldsPackage(es, r);
    }
  }

  /** Discovery refuses exactly if some entry is fatal, or suspicious for a step beyond every package. */
  lemma RefusesExactly(es: seq<Entry>, r: Found)
    requires Answers(Verdicts(es), es, r)
    ensures r.Refused? <==> (exists e :: e in es && Fatal(e)) || (exists e :: e in es && NewerThanAll(es, e))
  {
    if r.Refused? {
      RefusalHasReason(es, r);
    }
    if e :| e in es && Fatal(e) {
      FatalRefuses(es, r, e);
    }
    if e :| e in es && NewerThanAll(es, e) {
      NewerRefuses(es, r, e);
    }
  }

  /** An entry that discovery may pass over. */
  ghost predicate Harmless(es: seq<Entry>, e: Entry) {
    !Fatal(e) && forall s: U64 :: !Suspicious(e, s, NamesOf(es)) && !HoldsPackage(e, s)
  }

  lemma SkippedIsHarmless(es: seq<Entry>, e: Entry) returns (k: nat)
    requires e in es
    ensures k < |es| && es[k] == e && (Verdicts(es)[k].Skip? <==> Harmless(es, e))
  {
    k := VerdictOf(es, e);
    var v := Verdicts(es)[k];
    if v.Malformed? {
      assert v == Malformed(v.step);
    } else if v.Candidate? {
      assert v == Candidate(v.step);
    }
  }

  /** Nothing is found exactly if nothing is fatal, suspicious or a package. */
  lemma NothingFoundExactly(es: seq<Entry>, r: Found)
    requires Answers(Verdicts(es), es, r)
    ensures r == Answer(None) <==> forall e :: e in es ==> Harmless(es, e)
  {
    if r == Answer(None) {
      forall e | e in es
        ensures Harmless(es, e)
      {
        var k := SkippedIsHarmless(es, e);
      }
    } else if r.Answer? {
      AnswerHoldsPackage(es, r);
      var e :| e in es && HoldsPackage(e, r.latest.value.step);
      assert !Harmless(es, e);
    } else {
      var e := es[r.culprit.value];
      JudgedExactly(e, NamesOf(es));
      assert e in es && !Harmless(es, e);
    }
  }

  /** Then every readable final name holds a v1 manifest, a separated continuation, or no identity. */
  lemma PassedOver(es: seq<Entry>, e: Entry, s: U64)
    requires Answers(Verdicts(es), es, Answer(None)) && e in es && FinalOf(e, s)
    ensures e.state.Readable?
    ensures var m := e.state.m;
            || m.continuation == Some("rollout_ledger")
            || (m.continuation.None? && m.version != 2 && m.version != 3 && (m.version == 4 ==> m.identity.None?))
  {
    NothingFoundExactly(es, Answer(None));
    assert Harmless(es, e);
    assert !Suspicious(e, s, NamesOf(es)) && !HoldsPackage(e, s);
    assert !Forbidden(e, s);
  }

  /** And no aside is left whose canonical name is missing. */
  lemma PassedOverAsides(es: seq<Entry>, e: Entry, s: U64)
    requires Answers(Verdicts(es), es, Answer(None)) && e in es && AsideOf(e, s)
    ensures "step-" + ShowNat(s) in NamesOf(es)
  {
    NothingFoundExactly(es, Answer(None));
    assert Harmless(es, e);
    assert !Suspicious(e, s, NamesOf(es));
  }
}
