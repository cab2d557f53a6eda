/** The instruction builder of the transform route: a fixed preamble followed
    by one clause chosen by the requested mode. */
module Instructions {
  import opened Wrappers
  import opened JsText

  /** The preamble every instruction starts with (spelling as in the source). */
  const Base: string := "You are a helpful writing assistant. Be clear, consise, and your responses should be easily reusable. Do not add extra commentary."

  /** The summarize clause; it has no final period. */
  const SummarizeClause: string := " Summarize the given text" + " into maximum of 5 bullet points"

  /** The text around the tone in the rewrite clause. */
  const RewriteOpen: string := " Rewrite the given text into a "
  const RewriteClose: string := " tone. You should preserve the meaning."

  /** The text around the target language in the translate clause. */
  const TranslateOpen: string := " Translate the given statements to "
  const TranslateClose: string := ". Do not change the names or products mentioned."

  /** What an instruction asks the model to do, with the tone or the target
      exactly as it appears in the instruction text. */
  datatype Intent = Summarize | Rewrite(tone: string) | Translate(target: string)

  /** The tone used in rewrite mode: the given one, or "simple" when it is falsy. */
  function ToneOrDefault(tone: Option<string>): (t: string)
    ensures Truthy(tone) ==> t == tone.value
    ensures !Truthy(tone) ==> t == "simple"
  {
    if Truthy(tone) then tone.value else "simple"
  }

  /** The mode dispatch of the builder: "summarize" and "rewrite" are matched
      exactly, and every other mode, absent included, falls through to
      translate with the target rendered as a template literal renders it. */
  function IntentOf(mode: Option<string>, target: Option<string>, tone: Option<string>): (i: Intent)
    ensures i.Summarize? <==> mode == Some("summarize")
    ensures i.Rewrite? <==> mode == Some("rewrite")
    ensures i.Rewrite? ==> i.tone == ToneOrDefault(tone)
    ensures i.Translate? ==> i.target == Interpolate(target)
  {
    if mode == Some("summarize") then Summarize
    else if mode == Some("rewrite") then Rewrite(ToneOrDefault(tone))
    else Translate(Interpolate(target))
  }

  /** `buildInstructions(mode, target, tone)`. */
  function BuildInstructions(mode: Option<string>, target: Option<string>, tone: Option<string>): (r: string)
    ensures Base <= r
    ensures |r| > |Base|
  {
    if mode == Some("summarize") then
      Base + SummarizeClause
    else if mode == Some("rewrite") then
      Base + RewriteOpen + ToneOrDefault(tone) + RewriteClose
    else
      Base + TranslateOpen + Interpolate(target) + TranslateClose
  }

  /** `c` starts with `open` and ends with `close`, which do not overlap. */
  predicate Framed(c: string, open: string, close: string)
  {
    |open| + |close| <= |c| && open <= c && c[|c| - |close|..] == close
  }

  /** Reads a clause back: which clause it is, and the tone or target it
      carries. `None` when the text is no clause of the builder. */
  function ParseClause(c: string): (i: Option<Intent>)
    ensures i == Some(Summarize) <==> c == SummarizeClause
  {
    if c == SummarizeClause then Some(Summarize)
    else if Framed(c, RewriteOpen, RewriteClose) then
      Some(Rewrite(c[|RewriteOpen|..|c| - |RewriteClose|]))
    else if Framed(c, TranslateOpen, TranslateClose) then
      Some(Translate(c[|TranslateOpen|..|c| - |TranslateClose|]))
    else None
  }

  /** Reads an instruction back: the preamble, then a clause. */
  function Parse(s: string): (i: Option<Intent>)
    ensures i.Some? ==> Base <= s
  {
    if Base <= s then ParseClause(s[|Base|..]) else None
  }

  lemma ParseAfterBase(c: string)
    ensures Parse(Base + c) == ParseClause(c)
  {
    assert (Base + c)[..|Base|] == Base;
    assert (Base + c)[|Base|..] == c;
  }

  lemma FramedAround(open: string, x: string, close: string)
    ensures Framed(open + x + close, open, close)
    ensures (open + x + close)[|open|..|open + x + close| - |close|] == x
  {
    var c := open + x + close;
    assert c[..|open|] == open;
    assert c[|c| - |close|..] == close;
  }

  /** Reading back the summarize instruction. */
  lemma ParseSummarize()
    ensures Parse(Base + SummarizeClause) == Some(Summarize)
  {
    ParseAfterBase(SummarizeClause);
  }

  /** The rewrite clause is not the summarize clause. */
  lemma RewriteNotSummarize(tone: string)
    ensures RewriteOpen + tone + RewriteClose != SummarizeClause
  {
    assert (RewriteOpen + tone + RewriteClose)[1] == RewriteOpen[1] == 'R';
    assert SummarizeClause[1] == 'S';
  }

  /** The translate clause is neither the summarize clause nor framed as a
      rewrite clause. */
  lemma TranslateNotOther(target: string)
    ensures TranslateOpen + target + TranslateClose != SummarizeClause
    ensures !(RewriteOpen <= TranslateOpen + target + TranslateClose)
  {
    var c := TranslateOpen + target + TranslateClose;
    assert c[1] == TranslateOpen[1] == 'T';
    assert SummarizeClause[1] == 'S';
    assert RewriteOpen[1] == 'R';
  }

  /** Reading back a rewrite instruction recovers its tone verbatim. */
  lemma ParseRewrite(tone: string)
    ensures Parse(Base + RewriteOpen + tone + RewriteClose) == Some(Rewrite(tone))
  {
    var c := RewriteOpen + tone + RewriteClose;
    assert Base + RewriteOpen + tone + RewriteClose == Base + c;
    ParseAfterBase(c);
    RewriteNotSummarize(tone);
    FramedAround(RewriteOpen, tone, RewriteClose);
  }

  /** Reading back a translate instruction recovers its target verbatim. */
  lemma ParseTranslate(target: string)
    ensures Parse(Base + TranslateOpen + target + TranslateClose) == Some(Translate(target))
  {
    var c := TranslateOpen + target + TranslateClose;
    assert Base + TranslateOpen + target + TranslateClose == Base + c;
    ParseAfterBase(c);
    TranslateNotOther(target);
    FramedAround(TranslateOpen, target, TranslateClose);
  }

  /** The clause of an intent. */
  function RenderClause(i: Intent): string
  {
    match i
    case Summarize => SummarizeClause
    case Rewrite(tone) => RewriteOpen + tone + RewriteClose
    case Translate(target) => TranslateOpen + target + TranslateClose
  }

  /** The instruction text of an intent: the preamble and its clause. */
  function Render(i: Intent): (s: string)
    ensures Base <= s
  {
    assert (Base + RenderClause(i))[..|Base|] == Base;
    Base + RenderClause(i)
  }

  lemma ReFrame(c: string, open: string, close: string)
    requires Framed(c, open, close)
    ensures c == open + c[|open|..|c| - |close|] + close
  {
    assert c[..|open|] == open;
    assert c == c[..|open|] + c[|open|..|c| - |close|] + c[|c| - |close|..];
  }

  /** A text read as a clause is exactly that clause's rendering. */
  lemma ParseClauseExact(c: string)
    requires ParseClause(c).Some?
    ensures c == RenderClause(ParseClause(c).value)
  {
    if c == SummarizeClause {
    } else if Framed(c, RewriteOpen, RewriteClose) {
      ReFrame(c, RewriteOpen, RewriteClose);
    } else {
      ReFrame(c, TranslateOpen, TranslateClose);
    }
  }

  /** `Parse` loses nothing: a text it reads as an intent is exactly the
      rendering of that intent, so no two texts read as the same intent. */
  lemma ParseExact(s: string)
    requires Parse(s).Some?
    ensures s == Render(Parse(s).value)
  {
    var c := s[|Base|..];
    assert s == Base + c by { assert s[..|Base|] == Base; }
    ParseClauseExact(c);
  }

  /** Round trip: every instruction the builder produces reads back as the
      intent chosen by the mode dispatch. */
  lemma BuildRoundTrip(mode: Option<string>, target: Option<string>, tone: Option<string>)
    ensures Parse(BuildInstructions(mode, target, tone)) == Some(IntentOf(mode, target, tone))
  {
    if mode == Some("summarize") {
      ParseSummarize();
    } else if mode == Some("rewrite") {
      ParseRewrite(ToneOrDefault(tone));
    } else {
      ParseTranslate(Interpolate(target));
    }
  }

  /** Every instruction is the preamble followed by the clause of the intent
      the mode dispatch chose. */
  lemma BuildIsRenderedIntent(mode: Option<string>, target: Option<string>, tone: Option<string>)
    ensures BuildInstructions(mode, target, tone) == Render(IntentOf(mode, target, tone))
  {
    BuildRoundTrip(mode, target, tone);
    ParseExact(BuildInstructions(mode, target, tone));
  }

  /** Two requests get the same instruction exactly when they ask for the
      same intent: the builder loses nothing beyond the defaults it applies. */
  lemma BuildSameIffSameIntent(m1: Option<string>, a1: Option<string>, t1: Option<string>,
                               m2: Option<string>, a2: Option<string>, t2: Option<string>)
    ensures BuildInstructions(m1, a1, t1) == BuildInstructions(m2, a2, t2)
        <==> IntentOf(m1, a1, t1) == IntentOf(m2, a2, t2)
  {
    BuildRoundTrip(m1, a1, t1);
    BuildRoundTrip(m2, a2, t2);
  }

  /** Summarize mode yields the preamble and the summarize clause, whatever
      the target and the tone. */
  lemma BuildSummarize(target: Option<string>, tone: Option<string>)
    ensures BuildInstructions(Some("summarize"), target, tone) == Base + SummarizeClause
    ensures Parse(BuildInstructions(Some("summarize"), target, tone)) == Some(Summarize)
  {
    ParseSummarize();
  }

  /** Rewrite mode with an absent or empty tone asks for "a simple tone": the
      instruction is the one an explicit tone "simple" gives. */
  lemma BuildRewriteDefaultTone(target: Option<string>, tone: Option<string>)
    requires tone == None || tone == Some("")
    ensures BuildInstructions(Some("rewrite"), target, tone)
         == Base + RewriteOpen + "simple" + RewriteClose
    ensures BuildInstructions(Some("rewrite"), target, tone)
         == BuildInstructions(Some("rewrite"), target, Some("simple"))
    ensures Parse(BuildInstructions(Some("rewrite"), target, tone)) == Some(Rewrite("simple"))
  {
    ParseRewrite("simple");
  }

  /** Rewrite mode with a non-empty tone inserts it verbatim. */
  lemma BuildRewriteTone(target: Option<string>, tone: string)
    requires tone != ""
    ensures Parse(BuildInstructions(Some("rewrite"), target, Some(tone))) == Some(Rewrite(tone))
    ensures BuildInstructions(Some("rewrite"), target, Some(tone))
         == Base + RewriteOpen + tone + RewriteClose
  {
    BuildRoundTrip(Some("rewrite"), target, Some(tone));
  }

  /** Every mode other than "summarize" and "rewrite", absent and unknown
      ones included, yields the translate clause with the target verbatim. */
  lemma BuildTranslateFallback(mode: Option<string>, target: Option<string>, tone: Option<string>)
    requires mode != Some("summarize") && mode != Some("rewrite")
    ensures Parse(BuildInstructions(mode, target, tone)) == Some(Translate(Interpolate(target)))
    ensures BuildInstructions(mode, target, tone)
         == BuildInstructions(Some("translate"), target, None)
  {
    BuildRoundTrip(mode, target, tone);
  }
}
