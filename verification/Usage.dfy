/** Usage accounting across protocols: `renderUsage` and `convertUsage` of
    backend/codec/chatcompletions/decode_stream.go, of backend/codec/anthropic/encode_stream.go
    and of backend/codec/anthropic/decode_stream.go, and the loss report of
    backend/codec/lossy.go.

    A wire field that is left out when zero decodes to zero again, so it is modelled as its
    value; only objects that may be absent are options. */
module UsageCodec {
  import opened Ir
  import opened Aggregate

  datatype Family = Anthropic | ChatCompletions | OtherFamily

  // ----- what is reported as lost -----

  datatype Dim =
    | WebSearchCount | WebFetchCount | InferenceGeo | IterationsBreakdown
    | PromptAudio | CompletionAudio | Prediction | PromptImage | PromptText | CompletionText

  function When(lost: bool, dim: Dim): seq<Dim> { if lost then [dim] else [] }

  /** `UsageDropDims`: the details that a family has no field for. */
  function DropDims(u: Usage, family: Family): seq<Dim> {
    (if family == Anthropic then []
     else When(u.webSearches > 0, WebSearchCount) + When(u.webFetches > 0, WebFetchCount)
          + When(u.inferenceGeo != "", InferenceGeo) + When(u.iterations != "", IterationsBreakdown))
    + (if family == ChatCompletions then []
       else When(u.promptAudio > 0, PromptAudio) + When(u.completionAudio > 0, CompletionAudio)
            + When(u.acceptedPrediction > 0 || u.rejectedPrediction > 0, Prediction)
            + When(u.promptImage > 0, PromptImage) + When(u.promptText > 0, PromptText)
            + When(u.completionText > 0, CompletionText))
  }

  /** `DescribeResponseCacheDetailsLoss`: only one family tells cache writes apart by time
      to live. */
  predicate DropsCacheDetails(u: Usage, family: Family) {
    family != Anthropic && u.detailsKnown
  }

  // ----- Chat Completions -----

  datatype PromptDetails = PromptDetails(cached: int, audio: int, cacheWrite: int, image: int, text: int)

  datatype CompletionDetails = CompletionDetails(reasoning: int, audio: int, accepted: int, rejected: int, text: int)

  datatype ChatUsage = ChatUsage(
    prompt: int, completion: int, total: int, promptDetails: Option<PromptDetails>,
    cacheHit: int, cacheReadInput: int, cacheWrite: int, cacheCreation: int,
    completionDetails: Option<CompletionDetails>)

  /** What a client reads back out of the rendered usage is the usage, but for the dimensions
      Chat Completions lacks; and the totals add up. */
  method RenderChat(u: Usage) returns (out: ChatUsage)
    ensures out == ChatOf(u) && out.total == out.prompt + out.completion
    ensures NormalUsage(u) ==>
      FromChat(out) == u.(webSearches := 0, webFetches := 0, inferenceGeo := "", iterations := "",
                          detailsKnown := false, cacheWrite5m := 0, cacheWrite1h := 0)
  {
    var prompt := u.input + u.cacheRead;
    out := ChatUsage(prompt, u.output, prompt + u.output, None, 0, 0, 0, 0, None);
    if u.cacheRead > 0 || u.promptAudio > 0 || u.cacheWrite > 0 || u.promptImage > 0 || u.promptText > 0 {
      out := out.(promptDetails :=
        Some(PromptDetails(u.cacheRead, u.promptAudio, u.cacheWrite, u.promptImage, u.promptText)));
    }
    if u.cacheWrite > 0 {
      out := out.(cacheWrite := u.cacheWrite);
    }
    if u.reasoning > 0 || u.completionAudio > 0 || u.acceptedPrediction > 0 || u.rejectedPrediction > 0 || u.completionText > 0 {
      out := out.(completionDetails := Some(CompletionDetails(
        u.reasoning, u.completionAudio, u.acceptedPrediction, u.rejectedPrediction, u.completionText)));
    }
  }

  function ChatOf(u: Usage): ChatUsage {
    ChatUsage(
      u.input + u.cacheRead, u.output, u.input + u.cacheRead + u.output,
      if u.cacheRead > 0 || u.promptAudio > 0 || u.cacheWrite > 0 || u.promptImage > 0 || u.promptText > 0
      then Some(PromptDetails(u.cacheRead, u.promptAudio, u.cacheWrite, u.promptImage, u.promptText)) else None,
      0, 0, if u.cacheWrite > 0 then u.cacheWrite else 0, 0,
      if u.reasoning > 0 || u.completionAudio > 0 || u.acceptedPrediction > 0 || u.rejectedPrediction > 0 || u.completionText > 0
      then Some(CompletionDetails(u.reasoning, u.completionAudio, u.acceptedPrediction, u.rejectedPrediction, u.completionText))
      else None)
  }

  /** The first that is not zero. */
  function Either(a: int, b: int): int { if a != 0 then a else b }

  /** The input is what the prompt holds beyond the cache reads, never negative. */
  method ConvertChat(w: ChatUsage) returns (out: Usage)
    ensures out == FromChat(w) && out.input >= 0
    ensures out.cacheRead <= w.prompt <==> out.input + out.cacheRead == w.prompt
    ensures out.detailsKnown == false && out.cacheWrite5m == 0 && out.cacheWrite1h == 0
  {
    out := ZERO_USAGE.(input := w.prompt, output := w.completion);
    if w.promptDetails.Some? {
      var d := w.promptDetails.value;
      out := out.(cacheRead := d.cached, promptAudio := d.audio, cacheWrite := d.cacheWrite,
                  promptImage := d.image, promptText := d.text);
    }
    if out.cacheRead == 0 {
      out := out.(cacheRead := w.cacheHit);
    }
    if out.cacheRead == 0 {
      out := out.(cacheRead := w.cacheReadInput);
    }
    if out.cacheWrite == 0 {
      out := out.(cacheWrite := w.cacheWrite);
    }
    if out.cacheWrite == 0 {
      out := out.(cacheWrite := w.cacheCreation);
    }
    if w.completionDetails.Some? {
      var d := w.completionDetails.value;
      out := out.(reasoning := d.reasoning, completionAudio := d.audio, acceptedPrediction := d.accepted,
                  rejectedPrediction := d.rejected, completionText := d.text);
    }
    out := out.(input := out.input - out.cacheRead);
    if out.input < 0 {
      out := out.(input := 0);
    }
  }

  function FromChat(w: ChatUsage): Usage {
    var p := if w.promptDetails.Some? then w.promptDetails.value else PromptDetails(0, 0, 0, 0, 0);
    var c := if w.completionDetails.Some? then w.completionDetails.value else CompletionDetails(0, 0, 0, 0, 0);
    var read := Either(p.cached, Either(w.cacheHit, w.cacheReadInput));
    ZERO_USAGE.(
      input := if w.prompt - read < 0 then 0 else w.prompt - read, output := w.completion, cacheRead := read,
      cacheWrite := Either(p.cacheWrite, Either(w.cacheWrite, w.cacheCreation)),
      promptAudio := p.audio, promptImage := p.image, promptText := p.text,
      reasoning := c.reasoning, completionAudio := c.audio, acceptedPrediction := c.accepted,
      rejectedPrediction := c.rejected, completionText := c.text)
  }

  /** A usage survives the way to a Chat client and back exactly when no loss is reported. */
  lemma ChatReportsEveryLoss(u: Usage)
    requires NormalUsage(u)
    ensures FromChat(ChatOf(u)) == u
       <==> DropDims(u, ChatCompletions) == [] && !DropsCacheDetails(u, ChatCompletions)
  {
    var dims := DropDims(u, ChatCompletions);
    assert dims == [] <==> u.webSearches <= 0 && u.webFetches <= 0 && u.inferenceGeo == "" && u.iterations == "" by {
      assert dims == When(u.webSearches > 0, WebSearchCount) + When(u.webFetches > 0, WebFetchCount)
        + When(u.inferenceGeo != "", InferenceGeo) + When(u.iterations != "", IterationsBreakdown);
    }
    WhatComesBack(u);
  }

  /** What a Chat client sees of a usage: the prompt with what was read from the cache, the sum of
      prompt and completion, cache writes under both names that clients look for and under none of
      the others, and details exactly when they tell something. */
  lemma ChatShows(u: Usage)
    requires NormalUsage(u)
    ensures var w := ChatOf(u);
      && w.prompt == u.input + u.cacheRead && w.completion == u.output && w.total == w.prompt + w.completion
      && w.cacheWrite == u.cacheWrite && w.cacheHit == w.cacheReadInput == w.cacheCreation == 0
      && (w.promptDetails == None <==> u.cacheRead == u.cacheWrite == u.promptAudio == u.promptImage == u.promptText == 0)
      && (w.promptDetails.Some? ==> w.promptDetails.value.cacheWrite == u.cacheWrite)
      && (w.completionDetails == None <==>
            u.reasoning == u.completionAudio == u.acceptedPrediction == u.rejectedPrediction == u.completionText == 0)
  {}

  /** Whatever the upstream says, the input never turns negative and input and cache reads
      never add up to less than the prompt total. */
  lemma ChatInputIsFresh(w: ChatUsage)
    ensures var u := FromChat(w);
      u.input >= 0 && u.input + u.cacheRead >= w.prompt && (u.cacheRead <= w.prompt <==> u.input + u.cacheRead == w.prompt)
  {}

  // ----- Anthropic -----

  datatype CacheCreation = CacheCreation(ephemeral5m: int, ephemeral1h: int)

  datatype ServerTools = ServerTools(webSearches: int, webFetches: int)

  datatype AnthropicUsage = AnthropicUsage(
    input: int, output: int, cacheReadInput: int, cacheCreationInput: int,
    cacheCreation: Option<CacheCreation>, serverToolUse: Option<ServerTools>,
    thinking: Option<int>, inferenceGeo: string, iterations: string)

  /** What a client reads back is the usage, but for the dimensions Anthropic lacks. */
  method RenderAnthropic(u: Usage) returns (out: AnthropicUsage)
    ensures out == AnthropicOf(u)
    ensures NormalUsage(u) ==>
      FromAnthropic(out)
      == u.(promptAudio := 0, completionAudio := 0, acceptedPrediction := 0, rejectedPrediction := 0,
            promptImage := 0, promptText := 0, completionText := 0,
            cacheWrite := if u.cacheWrite != 0 then u.cacheWrite else u.cacheWrite5m + u.cacheWrite1h)
  {
    out := AnthropicUsage(u.input, u.output, u.cacheRead, u.cacheWrite, None, None, None, "", "");
    if u.detailsKnown {
      out := out.(cacheCreation := Some(CacheCreation(u.cacheWrite5m, u.cacheWrite1h)));
    }
    if u.webSearches > 0 || u.webFetches > 0 {
      out := out.(serverToolUse := Some(ServerTools(u.webSearches, u.webFetches)));
    }
    if u.reasoning > 0 {
      out := out.(thinking := Some(u.reasoning));
    }
    out := out.(inferenceGeo := u.inferenceGeo, iterations := u.iterations);
  }

  function AnthropicOf(u: Usage): AnthropicUsage {
    AnthropicUsage(
      u.input, u.output, u.cacheRead, u.cacheWrite,
      if u.detailsKnown then Some(CacheCreation(u.cacheWrite5m, u.cacheWrite1h)) else None,
      if u.webSearches > 0 || u.webFetches > 0 then Some(ServerTools(u.webSearches, u.webFetches)) else None,
      if u.reasoning > 0 then Some(u.reasoning) else None, u.inferenceGeo, u.iterations)
  }

  /** What an Anthropic client sees of a usage: an object exactly when it tells something, and the
      split of cache writes, zeros included, exactly when it is known. */
  lemma AnthropicShows(u: Usage)
    requires NormalUsage(u)
    ensures var w := AnthropicOf(u);
      && w.cacheCreationInput == u.cacheWrite && (w.cacheCreation == None <==> !u.detailsKnown)
      && (w.serverToolUse == None <==> u.webSearches == u.webFetches == 0)
      && (w.thinking == None <==> u.reasoning == 0)
  {}

  /** The parts of the write total are known exactly when they came, and a missing total is
      their sum. */
  method ConvertAnthropic(w: AnthropicUsage) returns (out: Usage)
    ensures out == FromAnthropic(w)
    ensures out.detailsKnown <==> w.cacheCreation.Some?
    ensures w.cacheCreationInput == 0 ==> out.cacheWrite == out.cacheWrite5m + out.cacheWrite1h
  {
    out := ZERO_USAGE.(input := w.input, output := w.output, cacheRead := w.cacheReadInput,
                      cacheWrite := w.cacheCreationInput);
    if w.cacheCreation.Some? {
      var c := w.cacheCreation.value;
      out := out.(cacheWrite5m := c.ephemeral5m, cacheWrite1h := c.ephemeral1h, detailsKnown := true);
      if out.cacheWrite == 0 {
        out := out.(cacheWrite := out.cacheWrite5m + out.cacheWrite1h);
      }
    }
    if w.serverToolUse.Some? {
      out := out.(webSearches := w.serverToolUse.value.webSearches, webFetches := w.serverToolUse.value.webFetches);
    }
    if w.thinking.Some? {
      out := out.(reasoning := w.thinking.value);
    }
    out := out.(inferenceGeo := w.inferenceGeo, iterations := w.iterations);
  }

  function FromAnthropic(w: AnthropicUsage): Usage {
    var c := if w.cacheCreation.Some? then w.cacheCreation.value else CacheCreation(0, 0);
    var t := if w.serverToolUse.Some? then w.serverToolUse.value else ServerTools(0, 0);
    ZERO_USAGE.(
      input := w.input, output := w.output, cacheRead := w.cacheReadInput,
      cacheWrite := Either(w.cacheCreationInput, c.ephemeral5m + c.ephemeral1h),
      cacheWrite5m := c.ephemeral5m, cacheWrite1h := c.ephemeral1h, detailsKnown := w.cacheCreation.Some?,
      webSearches := t.webSearches, webFetches := t.webFetches,
      reasoning := if w.thinking.Some? then w.thinking.value else 0,
      inferenceGeo := w.inferenceGeo, iterations := w.iterations)
  }

  /** The same for Anthropic, which in addition fills a missing write total from its parts. */
  lemma AnthropicReportsEveryLoss(u: Usage)
    requires NormalUsage(u)
    ensures FromAnthropic(AnthropicOf(u)) == u
       <==> && DropDims(u, Anthropic) == [] && !DropsCacheDetails(u, Anthropic)
            && (u.cacheWrite == 0 ==> u.cacheWrite5m + u.cacheWrite1h == 0)
  {
    var dims := DropDims(u, Anthropic);
    assert dims == [] <==>
      && u.promptAudio <= 0 && u.completionAudio <= 0 && u.acceptedPrediction <= 0 && u.rejectedPrediction <= 0
      && u.promptImage <= 0 && u.promptText <= 0 && u.completionText <= 0 by {
      assert dims == When(u.promptAudio > 0, PromptAudio) + When(u.completionAudio > 0, CompletionAudio)
        + When(u.acceptedPrediction > 0 || u.rejectedPrediction > 0, Prediction)
        + When(u.promptImage > 0, PromptImage) + When(u.promptText > 0, PromptText)
        + When(u.completionText > 0, CompletionText);
    }
    WhatComesBack(u);
  }

  /** What comes back, field by field, whether it was reported or not: a dimension the family
      lacks is zero, every other one is what it was, and nothing is invented but a write total
      that Anthropic can add up from its parts. */
  lemma WhatComesBack(u: Usage)
    requires NormalUsage(u)
    ensures FromChat(ChatOf(u))
         == u.(webSearches := 0, webFetches := 0, inferenceGeo := "", iterations := "",
               detailsKnown := false, cacheWrite5m := 0, cacheWrite1h := 0)
    ensures FromAnthropic(AnthropicOf(u))
         == u.(promptAudio := 0, completionAudio := 0, acceptedPrediction := 0, rejectedPrediction := 0,
               promptImage := 0, promptText := 0, completionText := 0,
               cacheWrite := if u.cacheWrite != 0 then u.cacheWrite else u.cacheWrite5m + u.cacheWrite1h)
  {}

  // ----- where a number comes from -----

  /** `r` is the first of the fields that is not zero, or zero if all are. */
  predicate IsFirst(r: int, fields: seq<int>) {
    if r == 0 then forall k :: 0 <= k < |fields| ==> fields[k] == 0
    else exists k :: 0 <= k < |fields| && fields[k] == r && forall j :: 0 <= j < k ==> fields[j] == 0
  }

  lemma EitherIsFirst(a: int, b: int, c: int)
    ensures IsFirst(Either(a, Either(b, c)), [a, b, c])
  {
    var fields := [a, b, c];
    if a != 0 { assert fields[0] == a; } else if b != 0 { assert fields[1] == b; } else { assert fields[2] == c; }
  }

  /** A cache read is looked for in the details first, then among the hits, then under the name that
      another family gives it; a cache write in the details, then beside them, then under that
      other name.  All other numbers have one place each. */
  lemma ChatSources(w: ChatUsage)
    ensures var u := FromChat(w);
      var p := if w.promptDetails.Some? then w.promptDetails.value else PromptDetails(0, 0, 0, 0, 0);
      var c := if w.completionDetails.Some? then w.completionDetails.value else CompletionDetails(0, 0, 0, 0, 0);
      && IsFirst(u.cacheRead, [p.cached, w.cacheHit, w.cacheReadInput])
      && IsFirst(u.cacheWrite, [p.cacheWrite, w.cacheWrite, w.cacheCreation])
      && u.output == w.completion && u.reasoning == c.reasoning
      && u.promptAudio == p.audio && u.promptImage == p.image && u.promptText == p.text
      && u.completionAudio == c.audio && u.completionText == c.text
      && u.acceptedPrediction == c.accepted && u.rejectedPrediction == c.rejected
      && u.webSearches == u.webFetches == 0 && u.inferenceGeo == u.iterations == ""
  {
    var p := if w.promptDetails.Some? then w.promptDetails.value else PromptDetails(0, 0, 0, 0, 0);
    EitherIsFirst(p.cached, w.cacheHit, w.cacheReadInput);
    EitherIsFirst(p.cacheWrite, w.cacheWrite, w.cacheCreation);
  }

  /** With Anthropic every number has one place, but for the write total, which may have to be added
      up from its parts. */
  lemma AnthropicSources(w: AnthropicUsage)
    ensures var u := FromAnthropic(w);
      && u.input == w.input && u.output == w.output && u.cacheRead == w.cacheReadInput
      && IsFirst(u.cacheWrite, [w.cacheCreationInput, u.cacheWrite5m + u.cacheWrite1h])
      && (u.detailsKnown <==> w.cacheCreation.Some?)
      && (w.cacheCreation.Some? ==>
            u.cacheWrite5m == w.cacheCreation.value.ephemeral5m && u.cacheWrite1h == w.cacheCreation.value.ephemeral1h)
      && (w.cacheCreation.None? ==> u.cacheWrite5m == u.cacheWrite1h == 0)
      && (if w.thinking.Some? then u.reasoning == w.thinking.value else u.reasoning == 0)
      && (if w.serverToolUse.Some?
          then u.webSearches == w.serverToolUse.value.webSearches && u.webFetches == w.serverToolUse.value.webFetches
          else u.webSearches == u.webFetches == 0)
      && u.inferenceGeo == w.inferenceGeo && u.iterations == w.iterations
  {
    var u := FromAnthropic(w);
    var fields := [w.cacheCreationInput, u.cacheWrite5m + u.cacheWrite1h];
    if w.cacheCreationInput != 0 { assert fields[0] == u.cacheWrite; } else { assert fields[1] == u.cacheWrite; }
  }

  // ----- which losses are named -----

  predicate Uses(u: Usage, dim: Dim) {
    match dim
    case WebSearchCount => u.webSearches > 0
    case WebFetchCount => u.webFetches > 0
    case InferenceGeo => u.inferenceGeo != ""
    case IterationsBreakdown => u.iterations != ""
    case PromptAudio => u.promptAudio > 0
    case CompletionAudio => u.completionAudio > 0
    case Prediction => u.acceptedPrediction > 0 || u.rejectedPrediction > 0
    case PromptImage => u.promptImage > 0
    case PromptText => u.promptText > 0
    case CompletionText => u.completionText > 0
  }

  /** The family that has a field for the dimension. */
  function Home(dim: Dim): Family {
    if dim == WebSearchCount || dim == WebFetchCount || dim == InferenceGeo || dim == IterationsBreakdown
    then Anthropic else ChatCompletions
  }

  lemma InFour(a: seq<Dim>, b: seq<Dim>, c: seq<Dim>, d: seq<Dim>, x: Dim)
    ensures x in a + b + c + d <==> x in a || x in b || x in c || x in d
  {}

  lemma InTwo(a: seq<Dim>, b: seq<Dim>, x: Dim)
    ensures x in a + b <==> x in a || x in b
  {}

  lemma OfAnthropic(u: Usage, dim: Dim)
    ensures dim in When(u.webSearches > 0, WebSearchCount) + When(u.webFetches > 0, WebFetchCount)
                   + When(u.inferenceGeo != "", InferenceGeo) + When(u.iterations != "", IterationsBreakdown)
       <==> Uses(u, dim) && Home(dim) == Anthropic
  {
    InFour(When(u.webSearches > 0, WebSearchCount), When(u.webFetches > 0, WebFetchCount),
           When(u.inferenceGeo != "", InferenceGeo), When(u.iterations != "", IterationsBreakdown), dim);
  }

  lemma OfChat(u: Usage, dim: Dim)
    ensures dim in When(u.promptAudio > 0, PromptAudio) + When(u.completionAudio > 0, CompletionAudio)
                   + When(u.acceptedPrediction > 0 || u.rejectedPrediction > 0, Prediction)
                   + When(u.promptImage > 0, PromptImage) + When(u.promptText > 0, PromptText)
                   + When(u.completionText > 0, CompletionText)
       <==> Uses(u, dim) && Home(dim) == ChatCompletions
  {
    var four := When(u.promptAudio > 0, PromptAudio) + When(u.completionAudio > 0, CompletionAudio)
                + When(u.acceptedPrediction > 0 || u.rejectedPrediction > 0, Prediction)
                + When(u.promptImage > 0, PromptImage);
    InFour(When(u.promptAudio > 0, PromptAudio), When(u.completionAudio > 0, CompletionAudio),
           When(u.acceptedPrediction > 0 || u.rejectedPrediction > 0, Prediction),
           When(u.promptImage > 0, PromptImage), dim);
    InTwo(four, When(u.promptText > 0, PromptText), dim);
    InTwo(four + When(u.promptText > 0, PromptText), When(u.completionText > 0, CompletionText), dim);
  }

  /** A loss is named exactly when the dimension is in use and another family's. */
  lemma LossesAreNamed(u: Usage, family: Family, dim: Dim)
    ensures dim in DropDims(u, family) <==> Uses(u, dim) && family != Home(dim)
  {
    OfAnthropic(u, dim);
    OfChat(u, dim);
  }
}
