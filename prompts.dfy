/** The texts the pipeline sends and stores: the error markers written into
    a result slot when a call fails, the two cross-critique prompts and the
    synthesis prompt. A prompt template is a sequence of fixed pieces with one
    session field filled in between each pair of neighbours, as a Python
    f-string is. */
module Prompts {
  import opened Backends

  /** Stored in the first backend's answer slot when its stage-1 call fails. */
  const GeminiErrorPrefix: string := "❌ 다온 에러: "
  /** Stored in the second backend's answer slot when its stage-1 call fails. */
  const GptErrorPrefix: string := "❌ 루 에러: "
  /** Stored in a critique slot when that stage-2 call fails. */
  const AnalysisErrorPrefix: string := "분석 실패: "
  /** Shown (not stored) when the stage-3 call fails. */
  const ConclusionErrorPrefix: string := "결론 도출 실패: "

  /** Asks the first backend to critique the second backend's answer. */
  const GeminiCritiqueIntro: string :=
    "다음은 '루(GPT)'의 답변입니다. 논리적 허점이나 보완할 점을 비판적으로 분석해주세요:\n"
  /** Asks the second backend to assess the first backend's answer. */
  const GptCritiqueIntro: string :=
    "다음은 '다온(Gemini)'의 답변입니다. 창의성과 감성적인 측면, 그리고 논리성을 평가해주세요:\n"

  /** The synthesis prompt's instructions, up to the question's heading. */
  const SynthesisIntro: string :=
    "\n너는 논쟁을 중재하고 최종 결론을 내리는 '수석 의장'이다.\n"
      + "아래의 대화 내용을 모두 검토하고, 사용자에게 가장 도움이 되는 핵심 요약과 최종 결론을 작성하라.\n\n"
      + "[사용자 질문]\n"
  const GeminiAnswerHeading: string := "\n\n[AI 1: 다온(Gemini)의 의견]\n"
  const GptAnswerHeading: string := "\n\n[AI 2: 루(GPT)의 의견]\n"
  const GeminiCritiqueHeading: string := "\n\n[상호 비판 1: 다온의 지적]\n"
  const GptCritiqueHeading: string := "\n\n[상호 비판 2: 루의 지적]\n"
  /** The writing guide that closes the synthesis prompt. */
  const SynthesisGuide: string :=
    "\n\n---\n[작성 가이드]\n"
      + "1. 두 의견의 공통점과 차이점을 간략히 짚어줄 것.\n"
      + "2. 상호 비판에서 나온 유효한 지적을 반영할 것.\n"
      + "3. 결론적으로 사용자가 어떻게 이해하거나 행동하면 좋을지 '최종 조언'을 명확히 제시할 것.\n"
      + "4. 톤앤매너: 전문적이고 명쾌하게.\n"

  /** The fixed pieces of the synthesis prompt; the question, the two answers
      and the two critiques go between them, in that order. */
  const SynthesisPieces: seq<string> :=
    [SynthesisIntro, GeminiAnswerHeading, GptAnswerHeading, GeminiCritiqueHeading, GptCritiqueHeading, SynthesisGuide]

  /** The text a result slot receives from a call: the reply, or the error
      marker followed by the exception's message. */
  function Recorded(reply: Reply, errorPrefix: string): (r: string)
    ensures reply.Ok? ==> r == reply.text
    // a failure is the marker, after which the message can be read back
    ensures reply.Err? ==>
      |r| == |errorPrefix| + |reply.message| && r[..|errorPrefix|] == errorPrefix && r[|errorPrefix|..] == reply.message
  {
    match reply
    case Ok(text) => text
    case Err(message) => errorPrefix + message
  }

  /** A failed call still leaves a non-empty slot behind, so a later stage's
      "both filled" gate does not tell a failure from an answer. */
  lemma FailureIsRecorded(reply: Reply, errorPrefix: string)
    requires reply.Err? && errorPrefix != ""
    ensures Recorded(reply, errorPrefix) != ""
    ensures Recorded(reply, errorPrefix)[..|errorPrefix|] == errorPrefix
  {
  }

  /** `pieces[0] + holes[0] + pieces[1] + ... + holes[n-1] + pieces[n]`. */
  function Fill(pieces: seq<string>, holes: seq<string>): (r: string)
    requires |pieces| == |holes| + 1
    decreases |holes|
  {
    if holes == [] then pieces[0]
    else pieces[0] + holes[0] + Fill(pieces[1..], holes[1..])
  }

  /** Where hole `i` starts in `Fill(pieces, holes)`. */
  function HoleStart(pieces: seq<string>, holes: seq<string>, i: nat): nat
    requires |pieces| == |holes| + 1 && i < |holes|
    decreases i
  {
    |pieces[0]| + if i == 0 then 0 else |holes[0]| + HoleStart(pieces[1..], holes[1..], i - 1)
  }

  /** A slice that lies wholly in the right operand of a concatenation. */
  lemma SliceRight(a: string, b: string, lo: nat, hi: nat)
    requires |a| <= lo <= hi <= |a| + |b|
    ensures (a + b)[lo..hi] == b[lo - |a|..hi - |a|]
  {
  }

  /** Hole `i + 1` starts right after hole `i` and the fixed piece between
      them: the holes appear in order, none overlapping. */
  lemma {:induction false} HoleStartNext(pieces: seq<string>, holes: seq<string>, i: nat)
    requires |pieces| == |holes| + 1 && i + 1 < |holes|
    ensures HoleStart(pieces, holes, i + 1) == HoleStart(pieces, holes, i) + |holes[i]| + |pieces[i + 1]|
    decreases i
  {
    if i > 0 {
      HoleStartNext(pieces[1..], holes[1..], i - 1);
    }
  }

  /** Hole `i` sits at its start position, and the fixed piece `i + 1`
      follows it directly. */
  lemma {:induction false} FillHole(pieces: seq<string>, holes: seq<string>, i: nat)
    requires |pieces| == |holes| + 1 && i < |holes|
    ensures HoleStart(pieces, holes, i) + |holes[i]| + |pieces[i + 1]| <= |Fill(pieces, holes)|
    ensures Fill(pieces, holes)[HoleStart(pieces, holes, i)..HoleStart(pieces, holes, i) + |holes[i]|] == holes[i]
    ensures Fill(pieces, holes)[HoleStart(pieces, holes, i) + |holes[i]|..
                                HoleStart(pieces, holes, i) + |holes[i]| + |pieces[i + 1]|] == pieces[i + 1]
    decreases i
  {
    var head := pieces[0] + holes[0];
    var tail := Fill(pieces[1..], holes[1..]);
    assert Fill(pieces, holes) == head + tail;
    if i == 0 {
      FillStartsWithPiece(pieces[1..], holes[1..]);
      assert tail[..|pieces[1]|] == pieces[1];
      SliceRight(head, tail, |head|, |head| + |pieces[1]|);
    } else {
      FillHole(pieces[1..], holes[1..], i - 1);
      var st := HoleStart(pieces[1..], holes[1..], i - 1);
      assert HoleStart(pieces, holes, i) == |head| + st;
      SliceRight(head, tail, |head| + st, |head| + st + |holes[i]|);
      SliceRight(head, tail, |head| + st + |holes[i]|, |head| + st + |holes[i]| + |pieces[i + 1]|);
    }
  }

  /** The template begins with its first fixed piece. */
  lemma FillStartsWithPiece(pieces: seq<string>, holes: seq<string>)
    requires |pieces| == |holes| + 1
    ensures |pieces[0]| <= |Fill(pieces, holes)|
    ensures Fill(pieces, holes)[..|pieces[0]|] == pieces[0]
  {
    if holes != [] {
      assert Fill(pieces, holes) == pieces[0] + (holes[0] + Fill(pieces[1..], holes[1..]));
    }
  }

  /** What the first backend is asked in stage 2: critique this answer of
      the second backend. */
  function GeminiCritiquePrompt(gptAnswer: string): (p: string)
    ensures |p| == |GeminiCritiqueIntro| + |gptAnswer|
    ensures p[..|GeminiCritiqueIntro|] == GeminiCritiqueIntro && p[|GeminiCritiqueIntro|..] == gptAnswer
  {
    GeminiCritiqueIntro + gptAnswer
  }

  /** What the second backend is asked in stage 2: assess this answer of the
      first backend. */
  function GptCritiquePrompt(geminiAnswer: string): (p: string)
    ensures |p| == |GptCritiqueIntro| + |geminiAnswer|
    ensures p[..|GptCritiqueIntro|] == GptCritiqueIntro && p[|GptCritiqueIntro|..] == geminiAnswer
  {
    GptCritiqueIntro + geminiAnswer
  }

  /** Each critique prompt ends with the answer under critique, after its
      fixed introduction, so the answer can be read back from the prompt: two
      different answers never give the same prompt. */
  lemma CritiquePromptsEmbed(answer: string, other: string)
    ensures GeminiCritiquePrompt(answer)[..|GeminiCritiqueIntro|] == GeminiCritiqueIntro
    ensures GeminiCritiquePrompt(answer)[|GeminiCritiqueIntro|..] == answer
    ensures GptCritiquePrompt(answer)[..|GptCritiqueIntro|] == GptCritiqueIntro
    ensures GptCritiquePrompt(answer)[|GptCritiqueIntro|..] == answer
    ensures GeminiCritiquePrompt(answer) == GeminiCritiquePrompt(other) ==> answer == other
    ensures GptCritiquePrompt(answer) == GptCritiquePrompt(other) ==> answer == other
  {
    if GeminiCritiquePrompt(answer) == GeminiCritiquePrompt(other) {
      assert answer == GeminiCritiquePrompt(answer)[|GeminiCritiqueIntro|..];
      assert other == GeminiCritiquePrompt(other)[|GeminiCritiqueIntro|..];
    }
    if GptCritiquePrompt(answer) == GptCritiquePrompt(other) {
      assert answer == GptCritiquePrompt(answer)[|GptCritiqueIntro|..];
      assert other == GptCritiquePrompt(other)[|GptCritiqueIntro|..];
    }
  }

  /** The session texts the synthesis prompt embeds, in prompt order. */
  function SynthesisHoles(question: string, geminiAnswer: string, gptAnswer: string,
                          geminiCritique: string, gptCritique: string): (holes: seq<string>)
    ensures |holes| + 1 == |SynthesisPieces|
  {
    [question, geminiAnswer, gptAnswer, geminiCritique, gptCritique]
  }

  /** What the second backend is asked in stage 3. */
  function SynthesisPrompt(question: string, geminiAnswer: string, gptAnswer: string,
                           geminiCritique: string, gptCritique: string): string
  {
    Fill(SynthesisPieces, SynthesisHoles(question, geminiAnswer, gptAnswer, geminiCritique, gptCritique))
  }

  /** The fixed piece `i` stands directly in front of hole `i`. */
  lemma PieceBeforeHole(pieces: seq<string>, holes: seq<string>, i: nat)
    requires |pieces| == |holes| + 1 && i < |holes|
    ensures |pieces[i]| <= HoleStart(pieces, holes, i) <= |Fill(pieces, holes)|
    ensures Fill(pieces, holes)[HoleStart(pieces, holes, i) - |pieces[i]|..HoleStart(pieces, holes, i)] == pieces[i]
  {
    if i == 0 {
      PieceBeforeFirstHole(pieces, holes);
    } else {
      PieceAfterHole(pieces, holes, i - 1);
    }
  }

  /** The first fixed piece stands directly in front of the first hole. */
  lemma PieceBeforeFirstHole(pieces: seq<string>, holes: seq<string>)
    requires |pieces| == |holes| + 1 && 0 < |holes|
    ensures HoleStart(pieces, holes, 0) == |pieces[0]| <= |Fill(pieces, holes)|
    ensures Fill(pieces, holes)[0..|pieces[0]|] == pieces[0]
  {
    FillStartsWithPiece(pieces, holes);
  }

  /** The same, seen from hole `i`: piece `i + 1` lies between it and hole `i + 1`. */
  lemma PieceAfterHole(pieces: seq<string>, holes: seq<string>, i: nat)
    requires |pieces| == |holes| + 1 && i + 1 < |holes|
    ensures |pieces[i + 1]| <= HoleStart(pieces, holes, i + 1) <= |Fill(pieces, holes)|
    ensures Fill(pieces, holes)[HoleStart(pieces, holes, i + 1) - |pieces[i + 1]|..HoleStart(pieces, holes, i + 1)]
         == pieces[i + 1]
  {
    FillHole(pieces, holes, i);
    HoleStartNext(pieces, holes, i);
  }

  /** In the filled template, hole `i` stands at its start position with
      fixed piece `i` directly before it, and the next hole starts after hole
      `i` and piece `i + 1`. */
  predicate HoleInPlace(pieces: seq<string>, holes: seq<string>, i: nat)
    requires |pieces| == |holes| + 1 && i < |holes|
  {
    var p := Fill(pieces, holes);
    var k := HoleStart(pieces, holes, i);
    && |pieces[i]| <= k && k + |holes[i]| <= |p|
    && p[k - |pieces[i]|..k] == pieces[i]
    && p[k..k + |holes[i]|] == holes[i]
    && (i + 1 < |holes| ==> HoleStart(pieces, holes, i + 1) == k + |holes[i]| + |pieces[i + 1]|)
  }

  /** Every hole of a filled template is in place. */
  lemma FillSection(pieces: seq<string>, holes: seq<string>, i: nat)
    requires |pieces| == |holes| + 1 && i < |holes|
    ensures HoleInPlace(pieces, holes, i)
  {
    FillHole(pieces, holes, i);
    PieceBeforeHole(pieces, holes, i);
    if i + 1 < |holes| {
      HoleStartNext(pieces, holes, i);
    }
  }

  /** The synthesis prompt holds the question, the two answers and the two
      critiques, in that order, each directly after its own heading. */
  lemma SynthesisPromptSections(question: string, geminiAnswer: string, gptAnswer: string,
                                geminiCritique: string, gptCritique: string)
    ensures var holes := SynthesisHoles(question, geminiAnswer, gptAnswer, geminiCritique, gptCritique);
            && holes == [question, geminiAnswer, gptAnswer, geminiCritique, gptCritique]
            && Fill(SynthesisPieces, holes) == SynthesisPrompt(question, geminiAnswer, gptAnswer, geminiCritique, gptCritique)
            && forall i: nat :: i < |holes| ==> HoleInPlace(SynthesisPieces, holes, i)
  {
    var holes := SynthesisHoles(question, geminiAnswer, gptAnswer, geminiCritique, gptCritique);
    forall i: nat | i < |holes| ensures HoleInPlace(SynthesisPieces, holes, i) {
      FillSection(SynthesisPieces, holes, i);
    }
  }
}
