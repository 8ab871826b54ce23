/** The prompt enhancer (`enhance_prompt`) and the style tag that the
    suggestion buttons hand to it (`suggest`). */
module Prompt {
  import opened Wrappers
  import opened Text

  // The keywords `enhance_prompt` looks for in the style, in the order it tests them.
  const Realistic := "реалистично"
  const Anime := "аниме"
  const InSpace := "космосе"
  const InCastle := "замке"
  const RandomStyle := "random"

  /** The suffix appended for each of the four fixed keywords. */
  const FixedSuffixes: seq<string> := [
    ", фотореализм, 8K, детализировано",
    ", в стиле аниме, Studio Ghibli",
    ", в космосе, галактика, неон",
    ", в старинном замке, магия, средневековье"
  ]

  /** The suffixes `random.choice` picks from under the `random` keyword. */
  const Extras: seq<string> := [", кинематографично", ", акварель", ", цифровая живопись", ", минимализм"]

  /** The style names no keyword of `enhance_prompt`. */
  predicate NoKeyword(style: string) {
    && !Contains(style, Realistic)
    && !Contains(style, Anime)
    && !Contains(style, InSpace)
    && !Contains(style, InCastle)
    && !Contains(style, RandomStyle)
  }

  /** `enhance_prompt(prompt, style)`; `pick` is the index `random.choice`
      draws from `Extras`, and is used only under the `random` keyword. */
  function EnhancePrompt(prompt: string, style: string, pick: nat): (r: string)
    requires pick < |Extras|
    ensures |prompt| <= |r| && r[..|prompt|] == prompt
    ensures var added := r[|prompt|..];
      added == "" || added in FixedSuffixes || added in Extras
  {
    if Contains(style, Realistic) then prompt + FixedSuffixes[0]
    else if Contains(style, Anime) then prompt + FixedSuffixes[1]
    else if Contains(style, InSpace) then prompt + FixedSuffixes[2]
    else if Contains(style, InCastle) then prompt + FixedSuffixes[3]
    else if Contains(style, RandomStyle) then prompt + Extras[pick]
    else prompt
  }

  /** The prompt comes back unchanged exactly when the style names no keyword. */
  lemma EnhanceUnchangedIffNoKeyword(prompt: string, style: string, pick: nat)
    requires pick < |Extras|
    ensures EnhancePrompt(prompt, style, pick) == prompt <==> NoKeyword(style)
  {
    var r := EnhancePrompt(prompt, style, pick);
    if !NoKeyword(style) {
      assert |r| > |prompt|;
    }
  }

  /** A style whose only keyword is `random` gets exactly one of the four extras. */
  lemma RandomStyleAddsOneExtra(prompt: string, style: string, pick: nat)
    requires pick < |Extras|
    requires Contains(style, RandomStyle)
    requires !Contains(style, Realistic) && !Contains(style, Anime)
    requires !Contains(style, InSpace) && !Contains(style, InCastle)
    ensures EnhancePrompt(prompt, style, pick) == prompt + Extras[pick]
    ensures forall k :: 0 <= k < |Extras| && k != pick ==>
      EnhancePrompt(prompt, style, pick) != prompt + Extras[k]
  {
    forall k | 0 <= k < |Extras| && k != pick
      ensures prompt + Extras[pick] != prompt + Extras[k]
    {
      assert (prompt + Extras[pick])[|prompt|..] == Extras[pick];
      assert (prompt + Extras[k])[|prompt|..] == Extras[k];
    }
  }

  /** The second underscore-separated part of the button data; `None` stands
      for the error raised on data without an underscore. */
  function CallbackStyle(data: string): (r: Option<string>)
    ensures r.Some? <==> '_' in data
    ensures r.Some? ==> '_' !in r.value
  {
    var parts := Split(data, '_');
    if |parts| > 1 then Some(parts[1]) else None
  }

  /** The callback data of the five suggestion buttons. */
  const SuggestionCallbacks: seq<string> :=
    ["suggest_realistic", "suggest_anime", "suggest_space", "suggest_castle", "suggest_random"]

  /** The query `suggest` falls back to when the chat has no last query. */
  const DefaultQuery := "искусство"

  /** The prompt `suggest` stores: the last query enhanced with the style of
      the pressed button. */
  function SuggestedPrompt(lastQuery: Option<string>, data: string, pick: nat): (r: Option<string>)
    requires pick < |Extras|
    ensures r.Some? <==> '_' in data
    ensures r.Some? ==> var base := lastQuery.GetOr(DefaultQuery);
      |base| <= |r.value| && r.value[..|base|] == base
  {
    match CallbackStyle(data)
    case None => None
    case Some(style) => Some(EnhancePrompt(lastQuery.GetOr(DefaultQuery), style, pick))
  }

  /** A button's data yields the part after `suggest_`. */
  lemma ButtonStyle(tag: string)
    requires '_' !in tag
    ensures CallbackStyle("suggest_" + tag) == Some(tag)
  {
    assert "suggest_" + tag == "suggest" + ['_'] + tag;
    SplitAtFirst("suggest", '_', tag);
    SplitWithoutSeparator(tag, '_');
  }

  /** A string made of lower-case Latin letters holds none of the Russian
      keywords, which start with Cyrillic letters. */
  lemma LatinHoldsNoRussianKeyword(s: string)
    requires forall i :: 0 <= i < |s| ==> 'a' <= s[i] <= 'z'
    ensures !Contains(s, Realistic) && !Contains(s, Anime)
    ensures !Contains(s, InSpace) && !Contains(s, InCastle)
  {
    assert Realistic[0] == 'р' && Anime[0] == 'а' && InSpace[0] == 'к' && InCastle[0] == 'з';
    MissingCharNotContained(s, Realistic, 'р');
    MissingCharNotContained(s, Anime, 'а');
    MissingCharNotContained(s, InSpace, 'к');
    MissingCharNotContained(s, InCastle, 'з');
  }

  /** None of the four English tags holds a Russian keyword (nor `random`). */
  lemma EnglishTagsHoldNoKeyword(tag: string)
    requires tag in ["realistic", "anime", "space", "castle"]
    ensures NoKeyword(tag)
  {
    assert forall i :: 0 <= i < |tag| ==> 'a' <= tag[i] <= 'z' && tag[i] != 'o';
    LatinHoldsNoRussianKeyword(tag);
    assert RandomStyle[4] == 'o';
    MissingCharNotContained(tag, RandomStyle, 'o');
  }

  /** Of the five suggestion buttons only `random` changes the prompt: the four
      others send English tags while `enhance_prompt` looks for Russian words. */
  lemma OnlyRandomButtonChangesPrompt(lastQuery: Option<string>, pick: nat)
    requires pick < |Extras|
    ensures forall k :: 0 <= k < 4 ==>
      SuggestedPrompt(lastQuery, SuggestionCallbacks[k], pick) == Some(lastQuery.GetOr(DefaultQuery))
    ensures SuggestedPrompt(lastQuery, SuggestionCallbacks[4], pick) == Some(lastQuery.GetOr(DefaultQuery) + Extras[pick])
  {
    var tags := ["realistic", "anime", "space", "castle", "random"];
    forall k | 0 <= k < 5 ensures CallbackStyle(SuggestionCallbacks[k]) == Some(tags[k]) {
      assert SuggestionCallbacks[k] == "suggest_" + tags[k];
      ButtonStyle(tags[k]);
    }
    forall k | 0 <= k < 4 ensures NoKeyword(tags[k]) {
      EnglishTagsHoldNoKeyword(tags[k]);
    }
    LatinHoldsNoRussianKeyword(RandomStyle);
    assert Contains(RandomStyle, RandomStyle);
  }
}
