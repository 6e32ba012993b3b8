/** The web-search heuristic (`WebSearchService`): a message asks for a
    search when it mentions one of the configured keywords, ignoring case,
    or holds a question mark. */
module WebSearch {
  import opened Common

  /** The keyword list the application starts with. */
  const DefaultKeywords: seq<string> := [
    "son haberler", "güncel", "haber", "son dakika", "en yeni",
    "ne demek", "anlamı", "tanımı", "açıklaması",
    "nasıl yapılır", "rehber", "adım adım",
    "fiyatı", "maliyeti", "ne kadar",
    "en iyi", "karşılaştırma", "değerlendirmesi",
    "nerede", "nerede bulunur", "adresi",
    "telefon numarası", "iletişim bilgileri"
  ]

  /** The lowercased message contains the lowercased keyword. */
  predicate MatchesKeyword(message: string, keyword: string) {
    Contains(Lower(message), Lower(keyword))
  }

  /** `shouldTriggerSearch(for:)` as a property of the message and the
      keyword list. */
  predicate Triggers(keywords: seq<string>, message: string) {
    (exists i | 0 <= i < |keywords| :: MatchesKeyword(message, keywords[i]))
    || Contains(message, "?")
  }

  /** Any message holding a question mark triggers a search, whatever the
      keywords. */
  lemma QuestionTriggers(keywords: seq<string>, message: string)
    requires '?' in message
    ensures Triggers(keywords, message)
  {
    ContainsSingle(message, '?');
    assert "?" == ['?'];
  }

  /** Without a question mark, a message triggers a search exactly when some
      keyword matches it. */
  lemma NoQuestionMeansKeyword(keywords: seq<string>, message: string)
    requires '?' !in message
    ensures Triggers(keywords, message) <==>
      exists i | 0 <= i < |keywords| :: MatchesKeyword(message, keywords[i])
  {
    ContainsSingle(message, '?');
    assert "?" == ['?'];
  }

  /** A string never contains anything longer than itself. */
  lemma {:induction false} LongerNotContained(s: string, sub: string)
    requires |sub| > |s|
    ensures !Contains(s, sub)
    decreases |s|
  {
    if |s| > 0 {
      LongerNotContained(s[1..], sub);
    }
  }

  /** Every default keyword but "haber" is longer than five characters. */
  lemma DefaultKeywordLengths(i: nat)
    requires i < |DefaultKeywords|
    ensures DefaultKeywords[i] == "haber" || |DefaultKeywords[i]| > 5
  {
  }

  /** "selam" has no default keyword in it. */
  lemma GreetingMatchesNoDefaultKeyword(i: nat)
    requires i < |DefaultKeywords|
    ensures !MatchesKeyword("selam", DefaultKeywords[i])
  {
    var m := "selam";
    assert Lower(m) == m;
    var k := Lower(DefaultKeywords[i]);
    DefaultKeywordLengths(i);
    if DefaultKeywords[i] == "haber" {
      assert Lower("haber") == "haber";
      assert !IsPrefix(k, m) by { assert k[0] == 'h' != m[0]; }
      LongerNotContained(m[1..], k);
    } else {
      LongerNotContained(m, k);
    }
  }

  /** With the default keywords a plain greeting does not trigger a search;
      a question does. */
  lemma DefaultExamples()
    ensures Triggers(DefaultKeywords, "kur'an nedir?")
    ensures !Triggers(DefaultKeywords, "selam")
  {
    QuestionTriggers(DefaultKeywords, "kur'an nedir?");
    NoQuestionMeansKeyword(DefaultKeywords, "selam");
    forall i | 0 <= i < |DefaultKeywords|
      ensures !MatchesKeyword("selam", DefaultKeywords[i])
    {
      GreetingMatchesNoDefaultKeyword(i);
    }
  }

  /** `addKeyword`: append unless an identical (case-sensitive) entry is
      already there. */
  function AddedKeyword(keywords: seq<string>, keyword: string): (r: seq<string>)
    ensures keyword in r
    ensures |r| == |keywords| + (if keyword in keywords then 0 else 1)
    ensures r[..|keywords|] == keywords
  {
    if keyword in keywords then keywords else keywords + [keyword]
  }

  /** Adding the same keyword twice is adding it once. */
  lemma AddKeywordIdempotent(keywords: seq<string>, keyword: string)
    ensures AddedKeyword(AddedKeyword(keywords, keyword), keyword) == AddedKeyword(keywords, keyword)
  {
  }

  /** After an addition a message triggers exactly when it triggered before
      or it matches the new keyword. */
  lemma AddKeywordTriggers(keywords: seq<string>, keyword: string, message: string)
    ensures Triggers(AddedKeyword(keywords, keyword), message) <==>
      Triggers(keywords, message) || MatchesKeyword(message, keyword)
  {
    var r := AddedKeyword(keywords, keyword);
    if keyword in keywords {
      var k :| 0 <= k < |keywords| && keywords[k] == keyword;
      if MatchesKeyword(message, keyword) {
        assert MatchesKeyword(message, keywords[k]);
      }
    } else {
      assert r[|keywords|] == keyword;
      if exists i | 0 <= i < |r| :: MatchesKeyword(message, r[i]) {
        var i :| 0 <= i < |r| && MatchesKeyword(message, r[i]);
        if i < |keywords| {
          assert r[i] == keywords[i];
        }
      }
      if exists i | 0 <= i < |keywords| :: MatchesKeyword(message, keywords[i]) {
        var i :| 0 <= i < |keywords| && MatchesKeyword(message, keywords[i]);
        assert r[i] == keywords[i];
      }
    }
  }

  /** `removeKeyword`: keep, in order, the entries that differ from the
      keyword ignoring case. */
  function RemovedKeyword(keywords: seq<string>, keyword: string): (r: seq<string>)
    ensures forall x :: x in r <==> x in keywords && !SameIgnoringCase(x, keyword)
    ensures |r| <= |keywords|
    decreases |keywords|
  {
    if |keywords| == 0 then []
    else
      var last := keywords[|keywords| - 1];
      RemovedKeyword(keywords[..|keywords| - 1], keyword)
        + (if SameIgnoringCase(last, keyword) then [] else [last])
  }

  /** Removing a keyword that no entry equals, ignoring case, changes
      nothing. */
  lemma {:induction false} RemoveAbsentKeyword(keywords: seq<string>, keyword: string)
    requires forall i | 0 <= i < |keywords| :: !SameIgnoringCase(keywords[i], keyword)
    ensures RemovedKeyword(keywords, keyword) == keywords
    decreases |keywords|
  {
    if |keywords| > 0 {
      RemoveAbsentKeyword(keywords[..|keywords| - 1], keyword);
      assert keywords == keywords[..|keywords| - 1] + [keywords[|keywords| - 1]];
    }
  }

  /** Adding a keyword and then removing it gives what removing it alone
      gives. */
  lemma AddThenRemove(keywords: seq<string>, keyword: string)
    ensures RemovedKeyword(AddedKeyword(keywords, keyword), keyword) == RemovedKeyword(keywords, keyword)
  {
    if keyword !in keywords {
      var r := keywords + [keyword];
      assert r[..|r| - 1] == keywords;
    }
  }

  class WebSearchService {
    /** The static `searchKeywords` list, shared by every user of the
        service. */
    var searchKeywords: seq<string>

    constructor ()
      ensures searchKeywords == DefaultKeywords
    {
      searchKeywords := DefaultKeywords;
    }

    /** `shouldTriggerSearch(for:)`: scan the keywords in order, stopping at
        the first match; otherwise look for a question mark. */
    method ShouldTriggerSearch(message: string) returns (r: bool)
      ensures r == Triggers(searchKeywords, message)
    {
      var lowercased := Lower(message);
      var i := 0;
      while i < |searchKeywords|
        invariant 0 <= i <= |searchKeywords|
        invariant forall j | 0 <= j < i :: !MatchesKeyword(message, searchKeywords[j])
      {
        if Contains(lowercased, Lower(searchKeywords[i])) {
          assert MatchesKeyword(message, searchKeywords[i]);
          return true;
        }
        i := i + 1;
      }
      r := Contains(message, "?");
    }

    /** `addKeyword`. */
    method AddKeyword(keyword: string)
      modifies this
      ensures searchKeywords == AddedKeyword(old(searchKeywords), keyword)
    {
      if keyword !in searchKeywords {
        searchKeywords := searchKeywords + [keyword];
      }
    }

    /** `removeKeyword`: `removeAll` with a case-insensitive comparison. */
    method RemoveKeyword(keyword: string)
      modifies this
      ensures searchKeywords == RemovedKeyword(old(searchKeywords), keyword)
      ensures forall i | 0 <= i < |searchKeywords| :: !SameIgnoringCase(searchKeywords[i], keyword)
    {
      var keywords := searchKeywords;
      var kept: seq<string> := [];
      var i := 0;
      while i < |keywords|
        invariant 0 <= i <= |keywords|
        invariant kept == RemovedKeyword(keywords[..i], keyword)
      {
        assert keywords[..i + 1][..i] == keywords[..i];
        if !SameIgnoringCase(keywords[i], keyword) {
          kept := kept + [keywords[i]];
        }
        i := i + 1;
      }
      assert keywords[..i] == keywords;
      searchKeywords := kept;
      assert forall i | 0 <= i < |kept| :: kept[i] in kept;
    }

    /** `getKeywords`. */
    method GetKeywords() returns (keywords: seq<string>)
      ensures keywords == searchKeywords
    {
      keywords := searchKeywords;
    }
  }
}
