/**
 * The year review the backend is asked for (`AnalysisResult`), how
 * JSON.stringify writes it, and how the app cleans the backend's text before
 * parsing it: `(text || '{}').replace(/```json\n?|\n?```/g, '').trim()`.
 */
module Analysis {
  import opened Record
  import opened Json
  import opened Text

  datatype Keyword = Keyword(word: string, explanation: string)

  datatype Portrait = Portrait(mentalCore: string, actionPattern: string, emotionalTone: string)

  datatype AnalysisResult = AnalysisResult(
    keywords: seq<Keyword>,
    portrait: Portrait,
    letterTitle: string,
    letterBody: string)

  const WordKey := "word"
  const ExplanationKey := "explanation"
  const MentalCoreKey := "mentalCore"
  const ActionPatternKey := "actionPattern"
  const EmotionalToneKey := "emotionalTone"

  function KeywordFields(k: Keyword): Record {
    [Entry(WordKey, k.word), Entry(ExplanationKey, k.explanation)]
  }

  function PortraitFields(p: Portrait): Record {
    [Entry(MentalCoreKey, p.mentalCore), Entry(ActionPatternKey, p.actionPattern),
     Entry(EmotionalToneKey, p.emotionalTone)]
  }

  function KeywordList(ks: seq<Keyword>): string {
    if ks == [] then []
    else if |ks| == 1 then StringifyRecord(KeywordFields(ks[0]))
    else StringifyRecord(KeywordFields(ks[0])) + [','] + KeywordList(ks[1..])
  }

  /** `"name":value`, one member of an object. */
  function Field(name: string, value: string): string {
    Quote(name) + ":" + value
  }

  const KeywordsKey := "keywords"
  const PortraitKey := "portrait"
  const LetterTitleKey := "letterTitle"
  const LetterBodyKey := "letterBody"

  function AnalysisMembers(a: AnalysisResult): string {
    var keywords := Field(KeywordsKey, "[" + KeywordList(a.keywords) + "]");
    var portrait := Field(PortraitKey, StringifyRecord(PortraitFields(a.portrait)));
    var title := Field(LetterTitleKey, Quote(a.letterTitle));
    var body := Field(LetterBodyKey, Quote(a.letterBody));
    keywords + "," + portrait + "," + title + "," + body
  }

  /** `JSON.stringify(result)`: compact, fields in declaration order. */
  function StringifyAnalysis(a: AnalysisResult): (t: string)
    ensures |t| >= 2 && t[0] == '{' && t[|t| - 1] == '}'
  {
    var m := AnalysisMembers(a);
    var t := "{" + m + "}";
    assert t[0] == '{' && t[|t| - 1] == '}';
    t
  }

  /** No text field of the result holds a backtick. */
  predicate BacktickFree(a: AnalysisResult) {
    && (forall i :: 0 <= i < |a.keywords| ==>
          '`' !in a.keywords[i].word && '`' !in a.keywords[i].explanation)
    && '`' !in a.portrait.mentalCore && '`' !in a.portrait.actionPattern
    && '`' !in a.portrait.emotionalTone
    && '`' !in a.letterTitle && '`' !in a.letterBody
  }

  lemma QuoteNoBacktick(s: string)
    requires '`' !in s
    ensures '`' !in Quote(s)
  {
    EscapeBodyNoBacktick(s);
  }

  lemma {:induction false} MembersNoBacktick(r: Record)
    requires r != []
    requires forall i :: 0 <= i < |r| ==> '`' !in r[i].key && '`' !in r[i].value
    ensures '`' !in Members(r)
  {
    QuoteNoBacktick(r[0].key);
    QuoteNoBacktick(r[0].value);
    if |r| > 1 {
      MembersNoBacktick(r[1..]);
    }
  }

  lemma RecordNoBacktick(r: Record)
    requires forall i :: 0 <= i < |r| ==> '`' !in r[i].key && '`' !in r[i].value
    ensures '`' !in StringifyRecord(r)
  {
    if r != [] {
      MembersNoBacktick(r);
    }
  }

  lemma {:induction false} KeywordListNoBacktick(ks: seq<Keyword>)
    requires forall i :: 0 <= i < |ks| ==> '`' !in ks[i].word && '`' !in ks[i].explanation
    ensures '`' !in KeywordList(ks)
  {
    if ks != [] {
      KeysNoBacktick();
      RecordNoBacktick(KeywordFields(ks[0]));
      if |ks| > 1 {
        KeywordListNoBacktick(ks[1..]);
      }
    }
  }

  lemma NoBacktickAppend(x: string, y: string)
    requires '`' !in x && '`' !in y
    ensures '`' !in x + y
  {
    assert forall c :: c in x + y ==> c in x || c in y;
  }

  lemma KeysNoBacktick()
    ensures '`' !in KeywordsKey && '`' !in PortraitKey
    ensures '`' !in LetterTitleKey && '`' !in LetterBodyKey
    ensures '`' !in WordKey && '`' !in ExplanationKey
    ensures '`' !in MentalCoreKey && '`' !in ActionPatternKey && '`' !in EmotionalToneKey
  {
  }

  lemma FieldNoBacktick(name: string, value: string)
    requires '`' !in name && '`' !in value
    ensures '`' !in Field(name, value)
  {
    QuoteNoBacktick(name);
    NoBacktickAppend(Quote(name), ":");
    NoBacktickAppend(Quote(name) + ":", value);
  }

  lemma JoinNoBacktick(w: string, x: string, y: string, z: string)
    requires '`' !in w && '`' !in x && '`' !in y && '`' !in z
    ensures '`' !in w + "," + x + "," + y + "," + z
  {
    NoBacktickAppend(w, ",");
    NoBacktickAppend(w + ",", x);
    NoBacktickAppend(w + "," + x, ",");
    NoBacktickAppend(w + "," + x + ",", y);
    NoBacktickAppend(w + "," + x + "," + y, ",");
    NoBacktickAppend(w + "," + x + "," + y + ",", z);
  }

  lemma KeywordsFieldNoBacktick(ks: seq<Keyword>)
    requires forall i :: 0 <= i < |ks| ==> '`' !in ks[i].word && '`' !in ks[i].explanation
    ensures '`' !in Field(KeywordsKey, "[" + KeywordList(ks) + "]")
  {
    var list := KeywordList(ks);
    KeysNoBacktick();
    KeywordListNoBacktick(ks);
    NoBacktickAppend("[", list);
    NoBacktickAppend("[" + list, "]");
    FieldNoBacktick(KeywordsKey, "[" + list + "]");
  }

  lemma PortraitFieldNoBacktick(p: Portrait)
    requires '`' !in p.mentalCore && '`' !in p.actionPattern && '`' !in p.emotionalTone
    ensures '`' !in Field(PortraitKey, StringifyRecord(PortraitFields(p)))
  {
    KeysNoBacktick();
    RecordNoBacktick(PortraitFields(p));
    FieldNoBacktick(PortraitKey, StringifyRecord(PortraitFields(p)));
  }

  lemma StringFieldNoBacktick(name: string, value: string)
    requires '`' !in name && '`' !in value
    ensures '`' !in Field(name, Quote(value))
  {
    QuoteNoBacktick(value);
    FieldNoBacktick(name, Quote(value));
  }

  lemma MembersOfAnalysisNoBacktick(a: AnalysisResult)
    requires BacktickFree(a)
    ensures '`' !in AnalysisMembers(a)
  {
    var w := Field(KeywordsKey, "[" + KeywordList(a.keywords) + "]");
    var x := Field(PortraitKey, StringifyRecord(PortraitFields(a.portrait)));
    var y := Field(LetterTitleKey, Quote(a.letterTitle));
    var z := Field(LetterBodyKey, Quote(a.letterBody));
    KeysNoBacktick();
    KeywordsFieldNoBacktick(a.keywords);
    PortraitFieldNoBacktick(a.portrait);
    StringFieldNoBacktick(LetterTitleKey, a.letterTitle);
    StringFieldNoBacktick(LetterBodyKey, a.letterBody);
    JoinNoBacktick(w, x, y, z);
  }

  /** JSON.stringify adds no backtick: a backtick-free result is written without one. */
  lemma StringifyNoBacktick(a: AnalysisResult)
    requires BacktickFree(a)
    ensures '`' !in StringifyAnalysis(a)
  {
    MembersOfAnalysisNoBacktick(a);
    NoBacktickAppend("{", AnalysisMembers(a));
    NoBacktickAppend("{" + AnalysisMembers(a), "}");
  }

  // ---------------------------------------------------------------------------
  // Cleaning the backend's text

  /**
   * `s.replace(/```json\n?|\n?```/g, '')`: scanning left to right, removes each
   * "```json" (with the newline after it, when there is one), each "\n```" and
   * each other "```".
   */
  function StripFences(s: string): string
    decreases |s|
  {
    if |s| >= 7 && s[..7] == "```json" then
      if |s| >= 8 && s[7] == '\n' then StripFences(s[8..]) else StripFences(s[7..])
    else if |s| >= 4 && s[0] == '\n' && s[1..4] == "```" then StripFences(s[4..])
    else if |s| >= 3 && s[..3] == "```" then StripFences(s[3..])
    else if s == [] then []
    else [s[0]] + StripFences(s[1..])
  }

  /** Text without a backtick holds no fence: stripping leaves it as it is. */
  lemma {:induction false} StripFencesOfPlain(s: string)
    requires '`' !in s
    ensures StripFences(s) == s
  {
    if s != [] {
      assert s[0] != '`';
      if |s| >= 4 && s[0] == '\n' {
        assert s[1] != '`';
      }
      StripFencesOfPlain(s[1..]);
    }
  }

  /** A character that cannot start a fence is kept. */
  lemma StripFencesKeeps(s: string)
    requires s != [] && s[0] != '`' && (s[0] == '\n' && |s| >= 4 ==> s[1] != '`')
    ensures StripFences(s) == [s[0]] + StripFences(s[1..])
  {
    if |s| >= 7 {
      assert s[..7][0] == s[0];
    }
    if |s| >= 3 {
      assert s[..3][0] == s[0];
    }
    if |s| >= 4 && s[0] == '\n' {
      assert s[1..4][0] == s[1];
    }
  }

  lemma StripBareClosingFence()
    ensures StripFences("\n```") == []
  {
    var s := "\n```";
    assert s[1..4] == "```";
    assert s[4..] == [];
  }

  lemma {:induction false} StripClosingFence(j: string)
    requires '`' !in j
    ensures StripFences(j + "\n```") == j
  {
    var s := j + "\n```";
    if j == [] {
      assert s == "\n```";
      StripBareClosingFence();
    } else {
      assert s[0] == j[0] && s[0] != '`';
      assert |s| >= 4 ==> s[1] != '`' by {
        if |j| > 1 { assert s[1] == j[1]; } else { assert s[1] == '\n'; }
      }
      StripFencesKeeps(s);
      assert s[1..] == j[1..] + "\n```";
      StripClosingFence(j[1..]);
      assert [j[0]] + j[1..] == j;
    }
  }

  /** A JSON document in a ```json code fence comes out of the stripping as the bare document. */
  lemma StripFencedJson(j: string)
    requires '`' !in j
    ensures StripFences("```json\n" + j + "\n```") == j
  {
    var s := "```json\n" + j + "\n```";
    assert s[..7] == "```json" && s[7] == '\n';
    assert s[8..] == j + "\n```";
    StripClosingFence(j);
  }

  /** The text handed to JSON.parse: `(text || '{}')` with the fences stripped, trimmed. */
  function ReviewJsonText(text: string): string {
    Trim(StripFences(if text == [] then "{}" else text))
  }

  /** Fenced or not, the same JSON document reaches the parser. */
  lemma ReviewJsonTextIgnoresFence(j: string)
    requires j != [] && '`' !in j
    ensures ReviewJsonText("```json\n" + j + "\n```") == ReviewJsonText(j)
  {
    StripFencedJson(j);
    StripFencesOfPlain(j);
  }

  /** A trimmed, fence-free, non-empty text reaches the parser unchanged. */
  lemma ReviewJsonTextOfPlain(t: string)
    requires t != [] && '`' !in t && IsTrimmed(t)
    ensures ReviewJsonText(t) == t
  {
    StripFencesOfPlain(t);
    TrimOfTrimmed(t);
  }

  lemma BracedIsTrimmed(t: string)
    requires |t| >= 2 && t[0] == '{' && t[|t| - 1] == '}'
    ensures IsTrimmed(t)
  {
    assert !IsSpace('{') && !IsSpace('}');
  }

  /** What JSON.stringify wrote for a result reaches the parser unchanged. */
  lemma ReviewJsonTextOfBraced(t: string)
    requires |t| >= 2 && t[0] == '{' && t[|t| - 1] == '}' && '`' !in t
    ensures ReviewJsonText(t) == t
  {
    BracedIsTrimmed(t);
    ReviewJsonTextOfPlain(t);
  }

}
