/** The client-side check that decides whether a question is answered
    locally or sent to the completion endpoint. */
module TopicFilter {
  import opened Strings

  /** The fixed keyword list, in the source's order. */
  const Keywords: seq<string> := [
    "skin", "skincare", "serum", "moisturizer", "cleanser", "toner", "spf",
    "sunscreen", "acne", "pore", "hyperpigmentation", "dark spot", "hair",
    "shampoo", "conditioner", "mask", "makeup", "foundation", "concealer",
    "mascara", "lipstick", "fragrance", "perfume", "routine", "l'oreal",
    "loreal", "maybelline", "garnier", "cerave", "nyx"
  ]

  /** `keywords.some((keyword) => lower.includes(keyword))`. */
  function SomeKeywordIn(keywords: seq<string>, lower: string): (b: bool)
    ensures b <==> exists k :: k in keywords && IsSubstring(k, lower)
  {
    if keywords == [] then false
    else
      assert forall k :: k in keywords <==> k == keywords[0] || k in keywords[1..];
      Contains(lower, keywords[0]) || SomeKeywordIn(keywords[1..], lower)
  }

  /** `isBeautyRelated`: some keyword occurs in the lowercased text. */
  function IsBeautyRelated(text: string): (b: bool)
    ensures b <==> exists k :: k in Keywords && IsSubstring(k, Lower(text))
  {
    SomeKeywordIn(Keywords, Lower(text))
  }

  /** Keyword `n` is spelled with lowercase ASCII letters, the apostrophe
      and the space only. */
  lemma KeywordAlphabet(n: nat)
    requires n < |Keywords|
    ensures forall c :: c in Keywords[n] ==> c in "abcdefghijklmnopqrstuvwxyz' "
  {
  }

  /** The list has thirty entries, none empty and all already lowercase. */
  lemma KeywordsShape()
    ensures |Keywords| == 30
    ensures forall k :: k in Keywords ==> k != [] && Lower(k) == k
  {
    forall n | 0 <= n < |Keywords| ensures Lower(Keywords[n]) == Keywords[n] {
      KeywordAlphabet(n);
      LowerOfLowercase(Keywords[n]);
    }
  }

  /** A text that is a keyword up to ASCII case is in scope. */
  lemma KeywordInScope(text: string)
    requires Lower(text) in Keywords
    ensures IsBeautyRelated(text)
  {
    var s := Lower(text);
    assert s[0..|s|] == s;
    assert OccursAt(s, s, 0);
  }

  /** Hence every keyword is in scope, written in lowercase as in the list
      or in capitals. */
  lemma KeywordsInScope()
    ensures forall k :: k in Keywords ==> IsBeautyRelated(k) && IsBeautyRelated(Upper(k))
  {
    KeywordsShape();
    forall k | k in Keywords ensures IsBeautyRelated(k) && IsBeautyRelated(Upper(k)) {
      KeywordInScope(k);
      LowerOfUpper(k);
      KeywordInScope(Upper(k));
    }
  }

  /** Lowercasing the text first does not change the verdict. */
  lemma CaseInsensitive(text: string)
    ensures IsBeautyRelated(Lower(text)) == IsBeautyRelated(text)
  {
    LowerIdempotent(text);
  }

  /** Neither does uppercasing it: "SKINCARE" classifies as "skincare". */
  lemma UppercaseInsensitive(text: string)
    ensures IsBeautyRelated(Upper(text)) == IsBeautyRelated(text)
  {
    LowerOfUpper(text);
  }

  /** For any keyword list, a text containing a matching text matches. */
  lemma SomeKeywordInMonotone(keywords: seq<string>, text: string, longer: string)
    requires SomeKeywordIn(keywords, Lower(text)) && IsSubstring(text, longer)
    ensures SomeKeywordIn(keywords, Lower(longer))
  {
    var k :| k in keywords && IsSubstring(k, Lower(text));
    LowerPreservesSubstring(text, longer);
    SubstringTransitive(k, Lower(text), Lower(longer));
  }

  /** Adding text around an in-scope question keeps it in scope. */
  lemma Monotone(text: string, longer: string)
    requires IsBeautyRelated(text) && IsSubstring(text, longer)
    ensures IsBeautyRelated(longer)
  {
    SomeKeywordInMonotone(Keywords, text, longer);
  }

  /** Untrimmed input is in scope whenever its trimmed form is. */
  lemma TrimmedInScope(raw: string)
    requires IsBeautyRelated(Trim(raw))
    ensures IsBeautyRelated(raw)
  {
    TrimIsSubstring(raw);
    Monotone(Trim(raw), raw);
  }

  /** A skincare question passes the filter: "skin" occurs in it at index
      14 of its lowercase form. */
  lemma SkincareQuestion()
    ensures IsBeautyRelated("What's a good skincare routine?")
  {
    assert OccursAt("skin", Lower("What's a good skincare routine?"), 14);
  }

  /** One letter of each keyword, in the order of the list. */
  const KeywordLetters := "kkumcnpucppkimcmmfcmlfpullmgcn"

  lemma KeywordLetter(n: nat)
    requires n < |Keywords|
    ensures KeywordLetters[n] in Keywords[n]
  {
  }

  lemma KeywordLetterRange(n: nat)
    requires n < |KeywordLetters|
    ensures KeywordLetters[n] in "kumcnpfilg"
  {
  }

  lemma WeatherLacks()
    ensures forall c :: c in "kumcnpfilg" ==> c !in "what's the weather today?"
  {
  }

  /** A weather question fails the filter and gets the canned refusal: each
      keyword has a letter that the lowercased question lacks. */
  lemma WeatherQuestion()
    ensures !IsBeautyRelated("What's the weather today?")
  {
    var lower := "what's the weather today?";
    assert Lower("What's the weather today?") == lower;
    WeatherLacks();
    forall n | 0 <= n < |Keywords| ensures !IsSubstring(Keywords[n], lower) {
      KeywordLetter(n);
      KeywordLetterRange(n);
      var c := KeywordLetters[n];
      if IsSubstring(Keywords[n], lower) {
        SubstringChars(Keywords[n], lower, c);
      }
    }
  }
}
