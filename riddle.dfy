// components/tools/minigames/RiddleMeThis.tsx — riddles with hints, an
// answer box that forgives case, padding and a leading article, and a
// reveal button.
module Riddle {
  import JsString

  // ---------------------------------------------------------------- normalize

  /** The length of the article `^(a|an|the)\s+` matches at the start of s,
      tried in that order, or 0 when it does not match. */
  function ArticleLength(s: string): (k: nat)
    ensures k <= 3 && (k > 0 ==> k < |s| && JsString.IsSpace(s[k]))
  {
    if |s| > 1 && s[0] == 'a' && JsString.IsSpace(s[1]) then 1
    else if |s| > 2 && s[0] == 'a' && s[1] == 'n' && JsString.IsSpace(s[2]) then 2
    else if |s| > 3 && s[0] == 't' && s[1] == 'h' && s[2] == 'e' && JsString.IsSpace(s[3]) then 3
    else 0
  }

  /** `.replace(/^(a|an|the)\s+/, '')`: a leading article and all the white
      space after it are removed; at most one article goes. */
  function StripArticle(s: string): string
  {
    var k := ArticleLength(s);
    if k > 0 then JsString.TrimStart(s[k..]) else s
  }

  /** The text changes exactly when it starts with an article and white space. */
  lemma StripArticleChanges(s: string)
    ensures StripArticle(s) != s <==> ArticleLength(s) > 0
  {
    var k := ArticleLength(s);
    if k > 0 {
      JsString.TrimStartShape(s[k..]);
      assert |JsString.TrimStart(s[k..])| < |s|;
    }
  }

  /** `normalize`: trimmed, lower-cased, one leading article dropped. */
  function Normalize(str: string): string
  {
    StripArticle(JsString.ToLower(JsString.Trim(str)))
  }

  lemma {:induction false} TrimStartLower(s: string)
    ensures JsString.ToLower(JsString.TrimStart(s)) == JsString.TrimStart(JsString.ToLower(s))
    decreases |s|
  {
    if s != [] {
      JsString.CaseKeepsSpace(s[0]);
      assert JsString.ToLower(s)[1..] == JsString.ToLower(s[1..]);
      TrimStartLower(s[1..]);
    }
  }

  lemma {:induction false} TrimEndLower(s: string)
    ensures JsString.ToLower(JsString.TrimEnd(s)) == JsString.TrimEnd(JsString.ToLower(s))
    decreases |s|
  {
    if s != [] {
      JsString.CaseKeepsSpace(s[|s| - 1]);
      assert JsString.ToLower(s)[..|s| - 1] == JsString.ToLower(s[..|s| - 1]);
      TrimEndLower(s[..|s| - 1]);
    }
  }

  /** Trimming and lower-casing commute. */
  lemma TrimLower(s: string)
    ensures JsString.ToLower(JsString.Trim(s)) == JsString.Trim(JsString.ToLower(s))
  {
    TrimStartLower(s);
    TrimEndLower(JsString.TrimStart(s));
  }

  /** Texts that agree once lower-cased normalize alike: case never matters. */
  lemma NormalizeIgnoresCase(a: string, b: string)
    requires JsString.ToLower(a) == JsString.ToLower(b)
    ensures Normalize(a) == Normalize(b)
  {
    TrimLower(a);
    TrimLower(b);
  }

  /** An answer typed in capitals normalizes like the answer. */
  lemma NormalizeUpper(s: string)
    ensures Normalize(JsString.ToUpper(s)) == Normalize(s)
  {
    JsString.LowerOfUpper(s);
    NormalizeIgnoresCase(JsString.ToUpper(s), s);
  }

  /** Surrounding white space never matters. */
  lemma NormalizeIgnoresPadding(p: string, s: string, q: string)
    requires JsString.AllSpace(p) && JsString.AllSpace(q)
    ensures Normalize(p + s + q) == Normalize(s)
  {
    JsString.TrimIgnoresPadding(p, s, q);
  }

  predicate IsArticle(article: string)
  {
    article == "a" || article == "an" || article == "the"
  }

  lemma ArticleTrimmed(article: string, w: string)
    requires IsArticle(article)
    requires w != [] && !JsString.IsSpace(w[0]) && !JsString.IsSpace(w[|w| - 1])
    ensures JsString.Trim(article + " " + w) == article + " " + w
  {
    var s := article + " " + w;
    assert s[0] == article[0];
    assert JsString.TrimStart(s) == s;
    assert s[|s| - 1] == w[|w| - 1];
  }

  lemma ArticleLower(article: string, w: string)
    requires IsArticle(article) && JsString.ToLower(w) == w
    ensures JsString.ToLower(article + " " + w) == article + " " + w
  {
    var s := article + " " + w;
    var k := |article|;
    forall i | 0 <= i < |s| ensures JsString.LowerChar(s[i]) == s[i] {
      if i >= k + 1 {
        assert s[i] == w[i - k - 1];
        assert JsString.ToLower(w)[i - k - 1] == JsString.LowerChar(w[i - k - 1]);
      }
    }
  }

  lemma ArticleStripped(article: string, w: string)
    requires IsArticle(article) && w != [] && !JsString.IsSpace(w[0])
    ensures StripArticle(article + " " + w) == w
  {
    var s := article + " " + w;
    var k := |article|;
    assert s[..k] == article && s[k] == ' ';
    assert s[k..] == [' '] + w;
    assert ArticleLength(s) == k by {
      assert s[0] == article[0];
      if article == "an" {
        assert s[1] == 'n' && !JsString.IsSpace('n');
      } else if article == "the" {
        assert s[1] == 'h' && s[2] == 'e';
      }
    }
    JsString.TrimStartSkipsSpace([' '], w);
    JsString.TrimStartNoSpace(w);
  }

  /** An article, a space and a trimmed lower-case answer normalize to the
      answer alone. */
  lemma NormalizeDropsArticle(article: string, w: string)
    requires IsArticle(article)
    requires w != [] && !JsString.IsSpace(w[0]) && !JsString.IsSpace(w[|w| - 1])
    requires JsString.ToLower(w) == w
    ensures Normalize(article + " " + w) == w
  {
    ArticleTrimmed(article, w);
    ArticleLower(article, w);
    ArticleStripped(article, w);
  }

  /** A bare article is kept: nothing follows it to strip. */
  lemma BareArticleKept()
    ensures Normalize("the") == "the" && Normalize("a") == "a"
  {
    TheKept();
    AKept();
  }

  lemma AKept()
    ensures Normalize("a") == "a"
  {
    var w := "a";
    assert w[0] == 'a' && !JsString.IsSpace('a');
    JsString.TrimStartNoSpace(w);
    JsString.TrimEndNoSpace(w);
    assert JsString.Trim(w) == w;
    assert JsString.ToLower(w) == w by {
      assert JsString.ToLower(w)[0] == JsString.LowerChar(w[0]);
    }
    assert ArticleLength(w) == 0;
  }

  lemma TheKept()
    ensures Normalize("the") == "the"
  {
    BareWordKept("the");
  }

  /** A trimmed lower-case word normalizes by the article rule alone. */
  lemma BareWordKept(w: string)
    requires w != [] && !JsString.IsSpace(w[0]) && !JsString.IsSpace(w[|w| - 1])
    requires JsString.ToLower(w) == w
    ensures Normalize(w) == StripArticle(w)
  {
    JsString.TrimStartNoSpace(w);
    JsString.TrimEndNoSpace(w);
  }

  /** The answer check: the normalized texts agree. */
  predicate Matches(input: string, answer: string)
  {
    Normalize(input) == Normalize(answer)
  }

  // ---------------------------------------------------------------- the game

  datatype Riddle = Riddle(riddle: string, hints: seq<string>, answer: string)

  datatype Feedback = NoFeedback | Correct | Incorrect | Revealed

  class Game {
    const riddles: seq<Riddle>
    var index: nat
    var userInput: string
    var hintsShown: nat
    var isAnswered: bool
    var feedback: Feedback
    /** The 1.5-second timers set by wrong answers that have not fired yet. */
    var pendingClears: nat

    /** The game is over once the index has passed the last riddle. */
    predicate IsGameEnd()
      reads this
    {
      index >= |riddles|
    }

    /** The index never passes the end, and no more hints are shown than
        the current riddle has. */
    predicate Valid()
      reads this
    {
      index <= |riddles|
      && hintsShown <= (if index < |riddles| then |riddles[index].hints| else 0)
    }

    constructor (riddles: seq<Riddle>)
      ensures Valid() && this.riddles == riddles
      ensures index == 0 && userInput == [] && hintsShown == 0 && !isAnswered
      ensures feedback == NoFeedback && pendingClears == 0
    {
      this.riddles := riddles;
      index, userInput, hintsShown, isAnswered, feedback, pendingClears := 0, [], 0, false, NoFeedback, 0;
    }

    method SetInput(value: string)
      modifies this
      ensures userInput == value
      ensures index == old(index) && hintsShown == old(hintsShown) && isAnswered == old(isAnswered)
      ensures feedback == old(feedback) && pendingClears == old(pendingClears)
    {
      userInput := value;
    }

    /** handleShowHint: one more hint while there are hints left. */
    method ShowHint()
      requires Valid()
      modifies this
      ensures Valid()
      ensures index == old(index) && userInput == old(userInput) && isAnswered == old(isAnswered)
      ensures hintsShown == if !old(IsGameEnd()) && old(hintsShown) < |riddles[index].hints|
                            then old(hintsShown) + 1 else old(hintsShown)
      ensures feedback == old(feedback) && pendingClears == old(pendingClears)
    {
      if index < |riddles| && hintsShown < |riddles[index].hints| {
        hintsShown := hintsShown + 1;
      }
    }

    /** handleRevealAnswer. */
    method RevealAnswer()
      requires Valid()
      modifies this
      ensures Valid()
      ensures old(IsGameEnd()) || old(isAnswered) ==> isAnswered == old(isAnswered) && feedback == old(feedback)
      ensures !old(IsGameEnd()) && !old(isAnswered) ==> isAnswered && feedback == Revealed
      ensures index == old(index) && userInput == old(userInput) && hintsShown == old(hintsShown)
      ensures pendingClears == old(pendingClears)
    {
      if index >= |riddles| || isAnswered {
        return;
      }
      isAnswered := true;
      feedback := Revealed;
    }

    /** handleSubmit: ignored for blank input, at the end or once answered;
        otherwise the riddle is answered exactly when the normalized texts
        agree, and a wrong answer sets the timer that clears the feedback. */
    method Submit()
      requires Valid()
      modifies this
      ensures Valid()
      ensures index == old(index) && userInput == old(userInput) && hintsShown == old(hintsShown)
      ensures var ignored := JsString.Trim(old(userInput)) == [] || old(IsGameEnd()) || old(isAnswered);
              if ignored then isAnswered == old(isAnswered) && feedback == old(feedback) && pendingClears == old(pendingClears)
              else if Matches(old(userInput), riddles[index].answer)
              then isAnswered && feedback == Correct && pendingClears == old(pendingClears)
              else !isAnswered && feedback == Incorrect && pendingClears == old(pendingClears) + 1
    {
      if JsString.Trim(userInput) == [] || index >= |riddles| || isAnswered {
        return;
      }
      if Matches(userInput, riddles[index].answer) {
        feedback := Correct;
        isAnswered := true;
      } else {
        feedback := Incorrect;
        pendingClears := pendingClears + 1;
      }
    }

    /** The feedback timer as written: it clears whatever feedback is shown
        by then. */
    method FeedbackTimerFires()
      requires pendingClears > 0
      modifies this
      ensures feedback == NoFeedback && pendingClears == old(pendingClears) - 1
      ensures index == old(index) && userInput == old(userInput) && hintsShown == old(hintsShown)
      ensures isAnswered == old(isAnswered)
    {
      feedback := NoFeedback;
      pendingClears := pendingClears - 1;
    }

    /** The feedback timer clearing only the "incorrect" message it was set for. */
    method FeedbackTimerFiresCorrected()
      requires pendingClears > 0
      modifies this
      ensures feedback == if old(feedback) == Incorrect then NoFeedback else old(feedback)
      ensures pendingClears == old(pendingClears) - 1
      ensures index == old(index) && userInput == old(userInput) && hintsShown == old(hintsShown)
      ensures isAnswered == old(isAnswered)
    {
      if feedback == Incorrect {
        feedback := NoFeedback;
      }
      pendingClears := pendingClears - 1;
    }

    /** handleNextRiddle: one riddle on, with input, hints, answer and
        feedback reset, until the end is reached. */
    method NextRiddle()
      requires Valid()
      modifies this
      ensures Valid()
      ensures old(IsGameEnd()) ==> index == old(index) && userInput == old(userInput) && hintsShown == old(hintsShown)
                                   && isAnswered == old(isAnswered) && feedback == old(feedback)
      ensures !old(IsGameEnd()) ==> index == old(index) + 1 && userInput == [] && hintsShown == 0
                                    && !isAnswered && feedback == NoFeedback
      ensures pendingClears == old(pendingClears)
    {
      if index < |riddles| {
        index := index + 1;
        userInput := [];
        hintsShown := 0;
        isAnswered := false;
        feedback := NoFeedback;
      }
    }
  }

  /** A wrong answer, then the right one before the first timer fires: the
      old timer wipes the "correct" message (and with it the mood-boost
      text) while the riddle stays answered. */
  method StaleClearHidesCorrect(g: Game, wrong: string)
    requires g.Valid() && !g.IsGameEnd() && !g.isAnswered && g.pendingClears == 0
    requires JsString.Trim(wrong) != [] && !Matches(wrong, g.riddles[g.index].answer)
    requires JsString.Trim(g.riddles[g.index].answer) != []
    modifies g
    ensures g.isAnswered && g.feedback == NoFeedback && g.pendingClears == 0
  {
    g.SetInput(wrong);
    g.Submit();
    g.SetInput(g.riddles[g.index].answer);
    g.Submit();
    assert g.feedback == Correct;
    g.FeedbackTimerFires();
  }

  /** The same run with the corrected timer keeps the "correct" message. */
  method CorrectedClearKeepsCorrect(g: Game, wrong: string)
    requires g.Valid() && !g.IsGameEnd() && !g.isAnswered && g.pendingClears == 0
    requires JsString.Trim(wrong) != [] && !Matches(wrong, g.riddles[g.index].answer)
    requires JsString.Trim(g.riddles[g.index].answer) != []
    modifies g
    ensures g.isAnswered && g.feedback == Correct && g.pendingClears == 0
  {
    g.SetInput(wrong);
    g.Submit();
    g.SetInput(g.riddles[g.index].answer);
    g.Submit();
    g.FeedbackTimerFiresCorrected();
  }
}
