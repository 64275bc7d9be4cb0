/** Accent- and case-insensitive string comparison, and the link validator's
    base URL. */
module Text {

  type Byte = b: int | 0 <= b < 256

  /** The fixed address every relative `link` of the API is resolved against. */
  const ApiBaseUrl: string := "https://statsapi.web.nhl.com"

  /** `s.encode("ASCII", "ignore")`: every code point below 128 becomes its byte,
      every other code point is dropped. */
  function AsciiBytes(s: string): (r: seq<Byte>)
    ensures |r| <= |s|
    ensures forall i :: 0 <= i < |r| ==> r[i] < 128
  {
    if s == [] then []
    else (if (s[0] as int) < 128 then [s[0] as int as Byte] else []) + AsciiBytes(s[1..])
  }

  /** `clean_str`: `fold` stands for NFKD normalisation followed by `casefold`,
      whose Unicode tables are not part of this model. */
  function CleanStr(fold: string -> string, s: string): (r: seq<Byte>)
    ensures |r| <= |fold(s)|
    ensures forall i :: 0 <= i < |r| ==> r[i] < 128
  {
    AsciiBytes(fold(s))
  }

  /** `string_equal`: equality of the cleaned forms. */
  predicate StringEqual(fold: string -> string, orig: string, search: string): (r: bool)
    ensures fold(orig) == fold(search) ==> r
    ensures r ==> |CleanStr(fold, orig)| == |CleanStr(fold, search)|
  {
    CleanStr(fold, orig) == CleanStr(fold, search)
  }

  /** `prepend_base_url`, the validator of every `link` field. */
  function PrependBaseUrl(link: string): (r: string)
    ensures |r| == |ApiBaseUrl| + |link|
    ensures r[..|ApiBaseUrl|] == ApiBaseUrl && r[|ApiBaseUrl|..] == link
  {
    ApiBaseUrl + link
  }

  predicate IsAscii(s: string) {
    forall i :: 0 <= i < |s| ==> (s[i] as int) < 128
  }

  /** Encoding distributes over concatenation: each character is kept or
      dropped on its own. */
  lemma {:induction false} AsciiBytesAppend(s: string, t: string)
    ensures AsciiBytes(s + t) == AsciiBytes(s) + AsciiBytes(t)
  {
    if s != [] {
      assert (s + t)[0] == s[0];
      assert (s + t)[1..] == s[1..] + t;
      AsciiBytesAppend(s[1..], t);
    } else {
      assert s + t == t;
    }
  }

  /** A non-ASCII code point (an accent that NFKD split off, say) contributes
      nothing, wherever it stands. */
  lemma DropsNonAscii(s: string, c: char, t: string)
    requires (c as int) >= 128
    ensures AsciiBytes(s + [c] + t) == AsciiBytes(s + t)
  {
    AsciiBytesAppend(s + [c], t);
    AsciiBytesAppend(s, [c]);
    AsciiBytesAppend(s, t);
    assert [c][1..] == [];
  }

  /** On ASCII text the encoding loses nothing: it is the code points themselves. */
  lemma {:induction false} AsciiBytesOfAscii(s: string)
    requires IsAscii(s)
    ensures |AsciiBytes(s)| == |s|
    ensures forall i :: 0 <= i < |s| ==> AsciiBytes(s)[i] == s[i] as int
  {
    if s != [] {
      assert IsAscii(s[1..]) by {
        forall i | 0 <= i < |s[1..]| ensures (s[1..][i] as int) < 128 {
          assert s[1..][i] == s[i + 1];
        }
      }
      AsciiBytesOfAscii(s[1..]);
    }
  }

  /** When NFKD and casefold already give ASCII, `string_equal` is plain
      equality of the folded strings, in both directions. */
  lemma StringEqualOnAscii(fold: string -> string, a: string, b: string)
    requires IsAscii(fold(a)) && IsAscii(fold(b))
    ensures StringEqual(fold, a, b) <==> fold(a) == fold(b)
  {
    AsciiBytesOfAscii(fold(a));
    AsciiBytesOfAscii(fold(b));
    if StringEqual(fold, a, b) {
      var x, y := fold(a), fold(b);
      assert |x| == |y|;
      forall i | 0 <= i < |x| ensures x[i] == y[i] {
        assert AsciiBytes(x)[i] == AsciiBytes(y)[i];
      }
    }
  }

  /** `string_equal` is an equivalence: reflexive, symmetric and transitive. */
  lemma StringEqualIsEquivalence(fold: string -> string, a: string, b: string, c: string)
    ensures StringEqual(fold, a, a)
    ensures StringEqual(fold, a, b) ==> StringEqual(fold, b, a)
    ensures StringEqual(fold, a, b) && StringEqual(fold, b, c) ==> StringEqual(fold, a, c)
  {
  }

  /** The docstring's first example: NFKD turns "Montréal" into "Montre" +
      U+0301 + "al" and casefold lowers the "M"; the combining accent is then
      dropped, so the two names compare equal. */
  lemma MontrealExample(fold: string -> string)
    requires fold("Montr\U{E9}al") == "montre\U{301}al"
    requires fold("montreal") == "montreal"
    ensures StringEqual(fold, "Montr\U{E9}al", "montreal")
  {
    DropsNonAscii("montre", '\U{301}', "al");
    assert "montre" + ['\U{301}'] + "al" == "montre\U{301}al";
    assert "montre" + "al" == "montreal";
  }

  /** The docstring's second example: "ab" and "abc" differ. */
  lemma PrefixNotEqualExample(fold: string -> string)
    requires fold("ab") == "ab" && fold("abc") == "abc"
    ensures !StringEqual(fold, "ab", "abc")
  {
    AsciiBytesOfAscii("ab");
    AsciiBytesOfAscii("abc");
  }

  /** Distinct relative links stay distinct once the base URL is prepended. */
  lemma PrependBaseUrlInjective(a: string, b: string)
    ensures PrependBaseUrl(a) == PrependBaseUrl(b) ==> a == b
  {
    if PrependBaseUrl(a) == PrependBaseUrl(b) {
      assert a == PrependBaseUrl(a)[|ApiBaseUrl|..];
    }
  }

  /** The link checked by the conference test. */
  lemma ConferenceLinkExample()
    ensures PrependBaseUrl("/api/v1/conferences/6") == "https://statsapi.web.nhl.com/api/v1/conferences/6"
  {
  }
}
