/**
 * `_clean_text` (main.py): the per-segment text normalisation. In order:
 * surrounding whitespace is stripped; with capitalization on the first
 * character is upper-cased unless it already is upper case, with it off the
 * whole text is lower-cased; with punctuation off every character of
 * `string.punctuation` is dropped.
 */
module Cleaning {
  import opened Text

  /** The capitalization step when it is on: only the first character may change. */
  function CapFirst(s: string): (r: string)
    ensures |r| == |s|
    ensures s != [] ==> r[0] == ToUpper(s[0]) && r[1..] == s[1..]
  {
    if s != [] && !IsUpper(s[0]) then [ToUpper(s[0])] + s[1..] else s
  }

  /** The case step: `CapFirst` with capitalization on, `str.lower` with it off. */
  function Cased(s: string, capitalization: bool): string {
    if capitalization then CapFirst(s) else Lower(s)
  }

  function CleanText(text: string, capitalization: bool, punctuation: bool): string {
    var cased := Cased(Strip(text), capitalization);
    if punctuation then cased else RemovePunct(cased)
  }

  /** Cleaning never lengthens the text. */
  lemma CleanNotLonger(text: string, capitalization: bool, punctuation: bool)
    ensures |CleanText(text, capitalization, punctuation)| <= |Strip(text)| <= |text|
  {
  }

  /** With capitalization off the result is entirely lower case. */
  lemma CleanLowerWhenCapsOff(text: string, punctuation: bool)
    ensures IsLowerStr(CleanText(text, false, punctuation))
  {
    var l := Lower(Strip(text));
    LowerIsLowerStr(Strip(text));
    if !punctuation {
      RemovePunctKeepsLower(l);
    }
  }

  /**
   * With capitalization and punctuation on, the result is the stripped text
   * with at most its first character upper-cased.
   */
  lemma CleanChangesFirstOnly(text: string)
    ensures var s, r := Strip(text), CleanText(text, true, true);
      && |r| == |s|
      && (s != [] ==> r[0] == ToUpper(s[0]) && r[1..] == s[1..])
  {
  }

  /** With punctuation off no punctuation mark is left; every other character that survives was in the cased text. */
  lemma CleanDropsPunct(text: string, capitalization: bool)
    ensures var r := CleanText(text, capitalization, false);
      && (forall c :: c in r ==> !IsPunct(c))
      && r == RemovePunct(CleanText(text, capitalization, true))
  {
    RemovePunctMembers(CleanText(text, capitalization, true));
  }

  /** Leading and trailing whitespace survives neither case step. */
  lemma CasedStripped(s: string, capitalization: bool)
    requires Stripped(s)
    ensures Stripped(Cased(s, capitalization))
  {
    if s != [] {
      UpperFacts(s[0]);
      LowerFacts(s[0]);
      LowerFacts(s[|s| - 1]);
      LowerAt(s, 0);
      LowerAt(s, |s| - 1);
    }
  }

  /** A second case step changes nothing. */
  lemma CasedIdempotent(s: string, capitalization: bool)
    ensures Cased(Cased(s, capitalization), capitalization) == Cased(s, capitalization)
  {
    if capitalization {
      if s != [] {
        UpperFacts(s[0]);
        var r := CapFirst(s);
        assert r == [r[0]] + r[1..];
      }
    } else {
      LowerIdempotent(s);
    }
  }

  /** With punctuation kept, cleaning an already cleaned text changes nothing. */
  lemma CleanIdempotentWithPunctuation(text: string, capitalization: bool)
    ensures var r := CleanText(text, capitalization, true);
      CleanText(r, capitalization, true) == r
  {
    var r := CleanText(text, capitalization, true);
    CasedStripped(Strip(text), capitalization);
    StripOfStripped(r);
    CasedIdempotent(Strip(text), capitalization);
  }

  /**
   * With punctuation removed cleaning is not idempotent: a leading mark hides
   * the first letter from the capitalization step, which sees it only on a
   * second pass.
   */
  lemma CleanNotIdempotentWithoutPunctuation()
    ensures CleanText("!a", true, false) == "a"
    ensures CleanText(CleanText("!a", true, false), true, false) == "A"
  {
    CleanBangA();
    CleanA();
  }

  /** The first pass: "!" is not a letter, so capitalization leaves it and the "a" behind it alone. */
  lemma CleanBangA()
    ensures CleanText("!a", true, false) == "a"
  {
    StripOfStripped("!a");
    assert CapFirst("!a") == "!a";
    assert RemovePunct("!a") == "a" by {
      assert "!a"[1..] == "a";
      RemovePunctOfClean("a");
    }
  }

  /** The second pass: now "a" comes first and is capitalized. */
  lemma CleanA()
    ensures CleanText("a", true, false) == "A"
  {
    StripOfStripped("a");
    assert CapFirst("a") == "A";
    RemovePunctOfClean("A");
  }

  /** With punctuation off, a text that is a single punctuation mark cleans to nothing. */
  lemma LoneMarkCleansToNothing(t: string, capitalization: bool)
    requires |t| == 1 && IsPunct(t[0])
    ensures CleanText(t, capitalization, false) == []
  {
    assert !IsSpace(t[0]);
    assert Stripped(t);
    StripOfStripped(t);
    UpperFacts(t[0]);
    LowerFacts(t[0]);
    var c := Cased(t, capitalization);
    assert |c| == 1 && IsPunct(c[0]);
    assert RemovePunct(c) == [] by {
      assert c[1..] == [];
    }
  }
}
