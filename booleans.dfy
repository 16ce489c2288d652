/** `str_to_bool`: a string reads as true exactly when, once stripped of
    surrounding whitespace, it is one of nine fixed spellings. */
module Booleans {
  import opened Builtins

  /** The spellings `str_to_bool` accepts as true. */
  const TrueStrings: seq<string> := ["TRUE", "True", "true", "1", "Y", "y", "YES", "Yes", "yes"]

  /** A blank string reads as false, and a string that reads as true holds a
      single word of one to four characters once stripped. */
  function StrToBool(s: string): (r: bool)
    ensures AllSpace(s) ==> !r
    ensures r ==> var w := Strip(s); 1 <= |w| <= 4 && forall k :: 0 <= k < |w| ==> !IsSpace(w[k])
  {
    StripBlank(s);
    Strip(s) in TrueStrings
  }

  /** Every accepted spelling is already trimmed, so padding it with any
      whitespace still reads as true, and padding nothing else does. */
  lemma StrToBoolPadded(pre: string, word: string, post: string)
    requires AllSpace(pre) && AllSpace(post) && Trimmed(word)
    ensures StrToBool(pre + word + post) <==> word in TrueStrings
  {
    StripPadded(pre, word, post);
  }

  /** A string with no surrounding whitespace is true exactly when it is one of the spellings. */
  lemma StrToBoolTrimmed(word: string)
    requires Trimmed(word)
    ensures StrToBool(word) <==> word in TrueStrings
  {
    StripPadded("", word, "");
    assert "" + word + "" == word;
  }

  /** `str(b)` of a Python bool reads back as `b`. */
  lemma StrToBoolOfStr(b: bool)
    ensures StrToBool(ToStr(PyBool(b))) == b
  {
    if b {
      assert ToStr(PyBool(b)) == "True";
      StrToBoolTrimmed("True");
    } else {
      assert ToStr(PyBool(b)) == "False";
      StrToBoolTrimmed("False");
    }
  }

  /** Strings the documentation lists as reading true; one is padded. */
  const TrueSamples: seq<string> := ["Yes", " yes ", "YES", "1"]

  /** "Yes", " yes ", "YES" and "1" read as true. */
  lemma StrToBoolTrueExamples()
    ensures forall i :: 0 <= i < |TrueSamples| ==> StrToBool(TrueSamples[i])
  {
    forall i | 0 <= i < |TrueSamples| ensures StrToBool(TrueSamples[i]) {
      if i == 1 {
        assert TrueSamples[i] == " " + "yes" + " ";
        StrToBoolPadded(" ", "yes", " ");
      } else {
        var word := TrueSamples[i];
        assert Trimmed(word) && word in TrueStrings;
        StrToBoolTrimmed(word);
      }
    }
  }

  /** Strings the documentation lists as reading false. */
  const FalseSamples: seq<string> := ["no", "0", "", "False"]

  /** "no", "0", "" and "False" read as false. */
  lemma StrToBoolFalseExamples()
    ensures forall i :: 0 <= i < |FalseSamples| ==> !StrToBool(FalseSamples[i])
  {
    forall i | 0 <= i < |FalseSamples| ensures !StrToBool(FalseSamples[i]) {
      var word := FalseSamples[i];
      assert Trimmed(word) && word !in TrueStrings;
      StrToBoolTrimmed(word);
    }
  }
}
