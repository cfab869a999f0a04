/** The length rule of the request validators (`isLength` of the query
    validation chains): the length counts code points, and the two
    variation selectors U+FE0E and U+FE0F are not counted at all. */
module Validators {

  predicate IsPresentationSelector(c: char) {
    c == '\U{FE0E}' || c == '\U{FE0F}'
  }

  /** The length `isLength` compares with its bounds. */
  function ValidatorLength(s: string): (n: nat)
    ensures n <= |s|
    ensures n == |s| <==> forall i :: 0 <= i < |s| ==> !IsPresentationSelector(s[i])
    ensures |s| == 1 ==> n == (if IsPresentationSelector(s[0]) then 0 else 1)
    decreases |s|
  {
    if |s| == 0 then 0
    else
      var init := s[..|s| - 1];
      assert forall i :: 0 <= i < |init| ==> init[i] == s[i];
      ValidatorLength(init) + (if IsPresentationSelector(s[|s| - 1]) then 0 else 1)
  }

  /** The length of a concatenation is the sum of the lengths: each
      character counts on its own. */
  lemma {:induction false} ValidatorLengthAppend(a: string, b: string)
    ensures ValidatorLength(a + b) == ValidatorLength(a) + ValidatorLength(b)
    decreases |b|
  {
    if |b| > 0 {
      var ab := a + b;
      assert ab[..|ab| - 1] == a + b[..|b| - 1];
      assert ab[|ab| - 1] == b[|b| - 1];
      ValidatorLengthAppend(a, b[..|b| - 1]);
    } else {
      assert a + b == a;
    }
  }

  /** `isLength({min, max})`. */
  predicate HasLength(s: string, min: nat, max: nat) {
    min <= ValidatorLength(s) <= max
  }
}
