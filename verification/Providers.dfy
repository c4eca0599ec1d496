/** The built-in providers that loop over what they read, against the numbers
    Signals states for them. */
module Providers {
  import opened Wrappers
  import opened Floats
  import opened Kernel
  import opened Signals
  import Text

  const STRONG_WORDS := ["architecture", "redesign", "tradeoff", "trade-off", "scalability",
                         "concurrency", "race condition", "across the codebase", "every file", "all files"]
  const MILD_WORDS := ["refactor", "migrate", "migration", "rewrite"]
  const VAGUE_WORDS := ["somehow", "maybe", "not sure", "figure out", "look into", "investigate"]
  const VAGUE_PHRASES := ["fix it", "handle it", "handle this", "fix this", "make it work", "sort it out", "take care of it"]

  predicate Contains(s: string, w: string) { exists i :: 0 <= i <= |s| && w <= s[i..] }

  function Hits(words: seq<string>, prompt: string): nat {
    if words == [] then 0
    else Hits(words[..|words| - 1], prompt) + if Contains(prompt, words[|words| - 1]) then 1 else 0
  }

  function Marks(prompt: string): nat {
    if prompt == "" then 0 else Marks(prompt[1..]) + if prompt[0] == '?' then 1 else 0
  }

  /** The part of the scope that the prompt decides; the prompt comes trimmed
      and lower-cased. */
  ghost predicate PromptOf(s: Scope, prompt: string) {
    && (s.blankPrompt <==> prompt == "")
    && s.strongHits == Hits(STRONG_WORDS, prompt) && s.mildHits == Hits(MILD_WORDS, prompt)
    && s.vagueHits == Hits(VAGUE_WORDS, prompt)
    && s.questionMarks == Marks(prompt) && s.words == |Text.Fields(prompt)|
  }

  /** One pass over a word list: what it adds to the score, and whether it hit. */
  method ScoreWords(words: seq<string>, prompt: string, each: real, score: real) returns (after: real, hit: bool)
    ensures after == score + each * (Hits(words, prompt) as real)
    ensures hit <==> Hits(words, prompt) > 0
  {
    after, hit := score, false;
    for i := 0 to |words|
      invariant after == score + each * (Hits(words[..i], prompt) as real)
      invariant hit <==> Hits(words[..i], prompt) > 0
    {
      assert words[..i + 1][..i] == words[..i];
      if Contains(prompt, words[i]) {
        after := after + each;
        hit := true;
      }
    }
    assert words[..|words|] == words;
  }

  method ScorePrompt(strongWords: seq<string>, mildWords: seq<string>, vagueWords: seq<string>, prompt: string, ghost s: Scope)
    returns (score: real, fuzzyMatch: bool)
    requires s.strongHits == Hits(strongWords, prompt) && s.mildHits == Hits(mildWords, prompt)
    requires s.vagueHits == Hits(vagueWords, prompt)
    requires s.questionMarks == Marks(prompt) && s.words == |Text.Fields(prompt)|
    ensures score == Score(s)
    ensures fuzzyMatch <==> s.strongHits > 0 || s.vagueHits > 0
  {
    var strong, mild, vague;
    score, strong := ScoreWords(strongWords, prompt, 0.15, 0.0);
    assert score == 0.15 * (s.strongHits as real);
    score, mild := ScoreWords(mildWords, prompt, 0.1, score);
    assert score == 0.15 * (s.strongHits as real) + 0.1 * (s.mildHits as real);
    score, vague := ScoreWords(vagueWords, prompt, 0.1, score);
    score := score + 0.1 * (Marks(prompt) as real);
    if |Text.Fields(prompt)| > 60 {
      score := score + 0.15;
    }
    fuzzyMatch := strong || vague;
  }

  method AssessPromptShape(prompt: string, ghost s: Scope) returns (r: Option<Evidence>)
    requires PromptOf(s, prompt)
    ensures r == PromptShape(s)
  {
    if prompt == "" {
      return None;
    }
    var score, fuzzyMatch := ScorePrompt(STRONG_WORDS, MILD_WORDS, VAGUE_WORDS, prompt, s);
    if score > 1.0 {
      score := 1.0;
    }
    var confidence := 0.85;
    if fuzzyMatch {
      confidence := 0.35;
    }
    return Some(Evidence("promptshape", Fin(score), Fin(confidence)));
  }

  function Covered(adjacent: seq<bool>): nat
    ensures Covered(adjacent) <= |adjacent|
  {
    if adjacent == [] then 0 else Covered(adjacent[..|adjacent| - 1]) + if adjacent[|adjacent| - 1] then 1 else 0
  }

  /** `adjacent`: for each file, whether a test file was found beside it. */
  method AssessTestPresence(adjacent: seq<bool>, ghost s: Scope) returns (r: Option<Evidence>)
    requires s.files == |adjacent| && s.covered == Covered(adjacent)
    ensures r == TestPresence(s)
  {
    if |adjacent| == 0 {
      return None;
    }
    var covered := 0;
    for i := 0 to |adjacent|
      invariant covered == Covered(adjacent[..i])
    {
      assert adjacent[..i + 1][..i] == adjacent[..i];
      if adjacent[i] {
        covered := covered + 1;
      }
    }
    assert adjacent[..|adjacent|] == adjacent;
    var ratio := covered as real / |adjacent| as real;
    return Some(Evidence("testpresence", Fin(0.6 - 0.5 * ratio), Fin(0.8)));
  }

  /** What is known of one word of the prompt: whether it is shaped like a path,
      names a tracked file, is prose, cites a line, and whether the file holds
      an identifier the prompt quotes. */
  datatype Token = Token(path: bool, tracked: bool, prose: bool, line: bool, quoted: bool)

  predicate Anchors(t: Token) { t.path && t.tracked && (!t.prose || t.line || t.quoted) }

  method AssessTaskSpecificity(prompt: string, tokens: seq<Token>, ghost s: Scope) returns (r: Option<Evidence>)
    requires PromptOf(s, prompt)
    requires s.strongAnchor <==> exists t :: t in tokens && Anchors(t)
    requires s.vaguePhrase <==> exists p :: p in VAGUE_PHRASES && Contains(prompt, p)
    ensures r == TaskSpecificity(s)
  {
    if prompt == "" {
      return None;
    }
    var strongAnchor, weakAnchor := false, false;
    for i := 0 to |tokens|
      invariant strongAnchor <==> exists k :: 0 <= k < i && Anchors(tokens[k])
    {
      if !tokens[i].path || !tokens[i].tracked {
        continue;
      }
      weakAnchor := true;
      if !tokens[i].prose || tokens[i].line || tokens[i].quoted {
        strongAnchor := true;
      }
    }
    var vague := false;
    for i := 0 to |VAGUE_PHRASES|
      invariant !vague && forall k :: 0 <= k < i ==> !Contains(prompt, VAGUE_PHRASES[k])
    {
      if Contains(prompt, VAGUE_PHRASES[i]) {
        vague := true;
        break;
      }
    }
    var confidence :=
      if strongAnchor then 0.85 else if vague || |Text.Fields(prompt)| < 6 then 0.2 else 0.5;
    return Some(Evidence("taskspecificity", ZERO, Fin(confidence)));
  }
}
