/** Graph entity ids: `C:<digits>` for concepts, `P:<digits>:<predicate>` for propositions. */
module EntityIds {
  import opened Prelude

  predicate AllDigits(s: string) {
    forall i :: 0 <= i < |s| ==> '0' <= s[i] <= '9'
  }

  predicate IsConceptId(s: string) {
    && |s| > 2 && s[0] == 'C' && s[1] == ':'
    && AllDigits(s[2..])
  }

  /** The text before and after the first colon. */
  function SplitOnce(s: string): Option<(string, string)> {
    if s == [] then None
    else if s[0] == ':' then Some(([], s[1..]))
    else match SplitOnce(s[1..])
         case None => None
         case Some((before, after)) => Some(([s[0]] + before, after))
  }

  predicate IsPropositionId(s: string) {
    && |s| >= 2 && s[0] == 'P' && s[1] == ':'
    && match SplitOnce(s[2..])
       case None => false
       case Some((id, pred)) => id != [] && AllDigits(id) && pred != []
  }

  predicate IsEntityId(s: string) {
    IsConceptId(s) || IsPropositionId(s)
  }

  lemma {:induction false} SplitOnceOf(before: string, after: string)
    requires ':' !in before
    ensures SplitOnce(before + [':'] + after) == Some((before, after))
  {
    var s := before + [':'] + after;
    if before == [] {
      assert s[1..] == after;
    } else {
      assert s[0] == before[0] && before[0] in before;
      assert s[1..] == before[1..] + [':'] + after;
      SplitOnceOf(before[1..], after);
      assert [before[0]] + before[1..] == before;
    }
  }

  lemma {:induction false} SplitOnceParts(s: string)
    requires SplitOnce(s).Some?
    ensures s == SplitOnce(s).value.0 + [':'] + SplitOnce(s).value.1
  {
    if s[0] != ':' { SplitOnceParts(s[1..]); }
  }

  /** Concept ids are exactly `C:` and a number. */
  lemma ConceptIdIff(s: string)
    ensures IsConceptId(s) <==> exists digits: string :: digits != [] && AllDigits(digits) && s == "C:" + digits
  {
    if IsConceptId(s) { assert s == "C:" + s[2..]; }
    if digits: string :| digits != [] && AllDigits(digits) && s == "C:" + digits { assert s[2..] == digits; }
  }

  /** Proposition ids are exactly `P:`, a number, a colon and a predicate. */
  lemma PropositionIdIff(s: string)
    ensures IsPropositionId(s) <==>
              exists id: string, pred: string :: id != [] && AllDigits(id) && pred != [] && s == PropositionId(id, pred)
  {
    if IsPropositionId(s) {
      SplitOnceParts(s[2..]);
      var parts := SplitOnce(s[2..]).value;
      assert s == ['P', ':'] + s[2..];
      assert s == PropositionId(parts.0, parts.1);
    }
    if id: string, pred: string :| id != [] && AllDigits(id) && pred != [] && s == PropositionId(id, pred) {
      SplitOnceOf(id, pred);
      assert s[2..] == id + [':'] + pred;
    }
  }

  lemma DigitsIff(s: string)
    ensures AllDigits(s) <==> forall i :: 0 <= i < |s| ==> s[i] in "0123456789"
  {
    forall i | 0 <= i < |s| ensures s[i] in "0123456789" <==> '0' <= s[i] <= '9' { DigitIff(s[i]); }
  }

  lemma DigitIff(c: char)
    ensures c in "0123456789" <==> '0' <= c <= '9'
  {
    var digits := "0123456789";
    if '0' <= c <= '9' { assert digits[c as int - 48] == c; }
  }

  /** `s` is a concept id, or a proposition id. */
  ghost predicate NamesEntity(s: string) {
    || (exists digits: string :: IsNumber(digits) && s == "C:" + digits)
    || (exists digits: string, pred: string :: IsNumber(digits) && pred != [] && s == PropositionId(digits, pred))
  }

  predicate IsNumber(s: string) {
    s != [] && forall i :: 0 <= i < |s| ==> s[i] in "0123456789"
  }

  /** Entity ids are exactly these two. */
  lemma EntityIdIff(s: string)
    ensures IsEntityId(s) <==> NamesEntity(s)
  {
    forall digits: string ensures AllDigits(digits) && digits != [] <==> IsNumber(digits) { DigitsIff(digits); }
    ConceptIdIff(s);
    PropositionIdIff(s);
    if IsConceptId(s) {
      var digits: string :| digits != [] && AllDigits(digits) && s == "C:" + digits;
      assert IsNumber(digits);
    }
    if IsPropositionId(s) {
      var id: string, pred: string :| id != [] && AllDigits(id) && pred != [] && s == PropositionId(id, pred);
      assert IsNumber(id);
    }
  }

  function PropositionId(id: string, pred: string): string {
    ['P', ':'] + (id + [':'] + pred)
  }
}
