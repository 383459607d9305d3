/** The prompt recomposition of services/geminiService.ts (`rebuildPrompt`):
    the request text built from a plan, and the fallback applied to the
    remote model's answer. */
module Composer {
  import opened Wrappers
  import opened Text
  import opened Webtoon

  /** `"t"`: a text placed between double quotes. */
  function Quoted(t: string): string {
    "\"" + t + "\""
  }

  /** `plan.dialogues[i]` inside a template literal: an index past the end of
      the array reads `undefined`, which prints as that word. */
  function DialogueText(p: Plan, i: nat): (d: string)
    ensures i < |p.dialogues| ==> d == p.dialogues[i]
    ensures i >= |p.dialogues| ==> d == "undefined"
  {
    if i < |p.dialogues| then p.dialogues[i] else "undefined"
  }

  /** The line describing panel number `n` (counted from 1). */
  function PanelLine(n: nat, action: string, dialogue: string): string {
    "Panel " + Decimal(n) + ": Action: " + action + " | Text in speech bubble: " + Quoted(dialogue)
  }

  /** One line per story step, in order, paired with the dialogue at the same
      index. */
  function PanelLines(p: Plan): seq<string> {
    seq(|p.storySummary|, i requires 0 <= i < |p.storySummary| =>
      PanelLine(i + 1, p.storySummary[i], DialogueText(p, i)))
  }

  /** The panel block: the panel lines joined by line feeds. */
  function PanelBlock(p: Plan): string {
    Join(PanelLines(p), "\n")
  }

  /** The fixed texts of the request template that lie between its
      interpolations. The layout below is stated for any choice of them, so
      that facts about positions do not depend on their spelling; `Template`
      holds the texts the source uses. */
  datatype Literals = Literals(
    preamble: string,
    characterLabel: string,
    openParen: string,
    closeParen: string,
    panelsHeading: string,
    infoHeading: string,
    infoTitle: string,
    lineBreak: string,
    contentLabel: string,
    quote: string,
    infoRemark: string,
    outroHeading: string,
    secondCharacterLabel: string,
    actionLabel: string,
    dialogueLabel: string,
    styleBreak: string,
    styleLabel: string,
    colorLabel: string,
    closing: string)

  /** The template's texts, with its exact spacing and line breaks. */
  const Template := Literals(
    preamble := "\n    Generate a Nanobanana image generation prompt. \n    STRICT RULE: Keep all dialogue, info text, and outro dialogue in the ORIGINAL LANGUAGE (e.g., Korean/Japanese). DO NOT TRANSLATE.\n\n    ",
    characterLabel := "1. Character: ",
    openParen := " (",
    closeParen := ")",
    panelsHeading := "\n    2. 4-Panel Story:\n    ",
    infoHeading := "\n    \n    3. Info Block (Below 4 panels):\n    ",
    infoTitle := "Title: \"TIPS & INFO\"",
    lineBreak := "\n    ",
    contentLabel := "Content: \"",
    quote := "\"",
    infoRemark := " (Include this exact text in a clean infographic box)",
    outroHeading := "\n    \n    4. Outro Panel (Final Panel):\n    ",
    secondCharacterLabel := "Second Character: ",
    actionLabel := "Action: ",
    dialogueLabel := "Dialogue: \"",
    styleBreak := "\n    \n    ",
    styleLabel := "Style: ",
    colorLabel := ", Main Color: ",
    closing := "\n    \n    Final Instruction:\n    - Create a single, cohesive English prompt.\n    - Mention \"vertical comic strip\" and \"4-panel with an extra info block and outro at the bottom\".\n    - Quality: masterpiece, best quality, 8k, ultra detailed.\n    - End with --ar 9:16.\n  ")

  // The request, section by section, as lists of fragments. The comment on
  // a fragment gives its index within its section.

  /** "1. Character: name (appearance)". */
  function CharacterParts(p: Plan, t: Literals): seq<string> {
    [t.characterLabel, p.recommendedCharacter.name, t.openParen,
     p.recommendedCharacter.appearance, t.closeParen]  // name 1, appearance 3
  }

  /** The "2. 4-Panel Story" heading and the panel block. */
  function PanelParts(p: Plan, t: Literals): seq<string> {
    [t.panelsHeading, PanelBlock(p)]  // panels 1
  }

  /** The "3. Info Block" heading, its title, and its content in quotes. */
  function InfoParts(p: Plan, t: Literals): seq<string> {
    [t.infoHeading, t.infoTitle, t.lineBreak, t.contentLabel,
     FlattenNewlines(p.infoTextBlock), t.quote, t.infoRemark]  // title 1, content 4
  }

  /** The "4. Outro Panel" heading, second character, action and dialogue. */
  function OutroParts(p: Plan, t: Literals): seq<string> {
    [t.outroHeading, t.secondCharacterLabel, p.outroDetails.secondCharacter,
     t.lineBreak, t.actionLabel, p.outroDetails.action,
     t.lineBreak, t.dialogueLabel, p.outroDetails.dialogue, t.quote]  // 2, 5, 8
  }

  /** "Style: ..., Main Color: ...". */
  function StyleParts(p: Plan, t: Literals): seq<string> {
    [t.styleBreak, t.styleLabel, p.artStyle.Label(), t.colorLabel, p.mainColor]  // 2, 4
  }

  /** The fragments of section `n` (1 to 5). */
  function SectionParts(p: Plan, t: Literals, n: nat): seq<string>
    requires 1 <= n <= 5
  {
    if n == 1 then CharacterParts(p, t)
    else if n == 2 then PanelParts(p, t)
    else if n == 3 then InfoParts(p, t)
    else if n == 4 then OutroParts(p, t)
    else StyleParts(p, t)
  }

  /** The whole request: preamble, the five sections, closing instructions. */
  function Sections(p: Plan, t: Literals): seq<string> {
    [t.preamble,
     Concat(CharacterParts(p, t)),
     Concat(PanelParts(p, t)),
     Concat(InfoParts(p, t)),
     Concat(OutroParts(p, t)),
     Concat(StyleParts(p, t)),
     t.closing]
  }

  /** The request built from any template's texts. */
  function Compose(p: Plan, t: Literals): string {
    Concat(Sections(p, t))
  }

  /** The request text sent to the text model. */
  function BuildRequest(p: Plan): string {
    Compose(p, Template)
  }

  /** Where fragment `k` of section `n` starts in the request. */
  function Pos(p: Plan, t: Literals, n: nat, k: nat): nat
    requires 1 <= n <= 5 && k <= |SectionParts(p, t, n)|
  {
    Offset(Sections(p, t), n) + Offset(SectionParts(p, t, n), k)
  }

  // ---------------------------------------------------------------------
  // What the request contains, and where. The layout lemmas hold for the
  // texts of any template; the `InRequest` lemmas spell them out for the
  // one `rebuildPrompt` uses.
  // ---------------------------------------------------------------------

  /** Where the line of panel `i` (counted from 0) starts in the request. */
  function PanelLinePos(p: Plan, t: Literals, i: nat): nat
    requires i < |p.storySummary|
  {
    Pos(p, t, 2, 1) + JoinOffset(PanelLines(p), "\n", i)
  }

  /** The request opens with the preamble and ends with the closing
      instructions, the section texts between them. */
  lemma ComposeFrame(p: Plan, t: Literals)
    ensures At(Compose(p, t), 0, t.preamble)
    ensures At(Compose(p, t), |Compose(p, t)| - |t.closing|, t.closing)
    ensures Pos(p, t, 1, 0) == |t.preamble|
    ensures Offset(Sections(p, t), 6) + |t.closing| == |Compose(p, t)|
  {
    var ss := Sections(p, t);
    OffsetNext(ss, 0);
    ConcatAt(ss, 0);
    ConcatAt(ss, 6);
    OffsetNext(ss, 6);
    OffsetEnd(ss);
  }

  /** The panel block sits right after the panels heading. */
  lemma PanelBlockAt(p: Plan, t: Literals)
    ensures At(Compose(p, t), Pos(p, t, 2, 1), PanelBlock(p))
  {
    var parts := PanelParts(p, t);
    assert Sections(p, t)[2] == Concat(parts);
    NestedAt(Sections(p, t), 2, parts, 1);
  }

  /** Every story step gives one line of the request, numbered from 1 and
      carrying the dialogue at the same index; the lines follow each other in
      story order, separated by exactly one line feed. */
  lemma PanelLineInRequest(p: Plan, t: Literals, i: nat)
    requires i < |p.storySummary|
    ensures At(Compose(p, t), PanelLinePos(p, t, i),
               PanelLine(i + 1, p.storySummary[i], DialogueText(p, i)))
    ensures i + 1 < |p.storySummary| ==>
      var end := PanelLinePos(p, t, i) + |PanelLine(i + 1, p.storySummary[i], DialogueText(p, i))|;
      && At(Compose(p, t), end, "\n")
      && PanelLinePos(p, t, i + 1) == end + 1
  {
    PanelLineAt(p, t, i);
  }

  /** `PanelLineInRequest` for the entries of `PanelLines`. */
  lemma PanelLineAt(p: Plan, t: Literals, i: nat)
    requires i < |p.storySummary|
    ensures At(Compose(p, t), PanelLinePos(p, t, i), PanelLines(p)[i])
    ensures i + 1 < |p.storySummary| ==>
      var end := PanelLinePos(p, t, i) + |PanelLines(p)[i]|;
      && At(Compose(p, t), end, "\n")
      && PanelLinePos(p, t, i + 1) == end + 1
  {
    PanelBlockAt(p, t);
    JoinEmbedded(Compose(p, t), Pos(p, t, 2, 1), PanelLines(p), "\n", i);
  }

  /** The panel block ends with its last line. */
  lemma PanelBlockEnd(p: Plan)
    requires |p.storySummary| > 0
    ensures var i := |p.storySummary| - 1;
      JoinOffset(PanelLines(p), "\n", i) + |PanelLine(i + 1, p.storySummary[i], DialogueText(p, i))|
        == |PanelBlock(p)|
  {
    var lines := PanelLines(p);
    JoinLength(lines, "\n");
  }

  /** The info section starts right where the panel block ends. */
  lemma PanelSectionEnd(p: Plan, t: Literals)
    ensures Pos(p, t, 2, 1) + |PanelBlock(p)| == Pos(p, t, 3, 0)
  {
    var parts, ss := PanelParts(p, t), Sections(p, t);
    OffsetNext(parts, 1);
    OffsetEnd(parts);
    assert |ss[2]| == Offset(parts, 1) + |PanelBlock(p)|;
    OffsetNext(ss, 2);
  }

  /** The panel block ends with the last panel line, and the info section
      starts right after it. */
  lemma LastPanelLineEnds(p: Plan, t: Literals)
    requires |p.storySummary| > 0
    ensures var i := |p.storySummary| - 1;
      PanelLinePos(p, t, i) + |PanelLine(i + 1, p.storySummary[i], DialogueText(p, i))|
        == Pos(p, t, 2, 1) + |PanelBlock(p)| == Pos(p, t, 3, 0)
  {
    PanelBlockEnd(p);
    PanelSectionEnd(p, t);
  }

  /** Every dialogue of a story step appears in the request byte for byte
      between double quotes, inside that step's panel line. */
  lemma DialogueInRequest(p: Plan, t: Literals, i: nat)
    requires i < |p.storySummary| && i < |p.dialogues|
    ensures Contains(Compose(p, t), PanelLine(i + 1, p.storySummary[i], p.dialogues[i]))
    ensures Contains(Compose(p, t), Quoted(p.dialogues[i]))
  {
    var r := Compose(p, t);
    var line := PanelLine(i + 1, p.storySummary[i], p.dialogues[i]);
    var head := "Panel " + Decimal(i + 1) + ": Action: " + p.storySummary[i] + " | Text in speech bubble: ";
    PanelLineInRequest(p, t, i);
    AtContains(r, PanelLinePos(p, t, i), line);
    AtSuffix(head, Quoted(p.dialogues[i]));
    AtWithin(r, PanelLinePos(p, t, i), line, |head|, Quoted(p.dialogues[i]));
    AtContains(r, PanelLinePos(p, t, i) + |head|, Quoted(p.dialogues[i]));
  }

  /** The character line: label, name, then appearance in parentheses; the
      name and the appearance sit at their positions. */
  lemma CharacterLaid(p: Plan, t: Literals)
    ensures At(Compose(p, t), Pos(p, t, 1, 1), p.recommendedCharacter.name)
    ensures At(Compose(p, t), Pos(p, t, 1, 3), p.recommendedCharacter.appearance)
    ensures Contains(Compose(p, t), t.characterLabel + p.recommendedCharacter.name
      + t.openParen + p.recommendedCharacter.appearance + t.closeParen)
  {
    var parts := CharacterParts(p, t);
    assert Sections(p, t)[1] == Concat(parts);
    NestedAt(Sections(p, t), 1, parts, 1);
    NestedAt(Sections(p, t), 1, parts, 3);
    NestedRunAt(Sections(p, t), 1, parts, 0, 4);
    assert Run(parts, 0, 1) == parts[0] + parts[1];
    assert Run(parts, 0, 3) == Run(parts, 0, 2) + parts[3];
    AtContains(Compose(p, t), Pos(p, t, 1, 0), Run(parts, 0, 4));
  }

  /** The info block: its title, then the info text with every line feed
      replaced by a space, between the content label and a quote; title and
      content sit at their positions. */
  lemma InfoLaid(p: Plan, t: Literals)
    ensures At(Compose(p, t), Pos(p, t, 3, 1), t.infoTitle)
    ensures At(Compose(p, t), Pos(p, t, 3, 4), FlattenNewlines(p.infoTextBlock))
    ensures Contains(Compose(p, t), t.contentLabel + FlattenNewlines(p.infoTextBlock) + t.quote)
  {
    var parts := InfoParts(p, t);
    assert Sections(p, t)[3] == Concat(parts);
    NestedAt(Sections(p, t), 3, parts, 1);
    NestedAt(Sections(p, t), 3, parts, 4);
    NestedRunAt(Sections(p, t), 3, parts, 3, 2);
    assert Run(parts, 3, 1) == parts[3] + parts[4];
    AtContains(Compose(p, t), Pos(p, t, 3, 3), Run(parts, 3, 2));
  }

  /** The outro: the second character and the action after their labels,
      and the dialogue, verbatim, between the dialogue label and a quote;
      the three values sit at their positions. */
  lemma OutroLaid(p: Plan, t: Literals)
    ensures At(Compose(p, t), Pos(p, t, 4, 2), p.outroDetails.secondCharacter)
    ensures At(Compose(p, t), Pos(p, t, 4, 5), p.outroDetails.action)
    ensures At(Compose(p, t), Pos(p, t, 4, 8), p.outroDetails.dialogue)
    ensures Contains(Compose(p, t), t.secondCharacterLabel + p.outroDetails.secondCharacter)
    ensures Contains(Compose(p, t), t.actionLabel + p.outroDetails.action)
    ensures Contains(Compose(p, t), t.dialogueLabel + p.outroDetails.dialogue + t.quote)
  {
    OutroValuesAt(p, t);
    OutroLabelled(p, t);
  }

  /** The three outro values at their positions. */
  lemma OutroValuesAt(p: Plan, t: Literals)
    ensures At(Compose(p, t), Pos(p, t, 4, 2), p.outroDetails.secondCharacter)
    ensures At(Compose(p, t), Pos(p, t, 4, 5), p.outroDetails.action)
    ensures At(Compose(p, t), Pos(p, t, 4, 8), p.outroDetails.dialogue)
  {
    var parts := OutroParts(p, t);
    assert Sections(p, t)[4] == Concat(parts);
    NestedAt(Sections(p, t), 4, parts, 2);
    NestedAt(Sections(p, t), 4, parts, 5);
    NestedAt(Sections(p, t), 4, parts, 8);
  }

  /** The three outro values right after their labels. */
  lemma OutroLabelled(p: Plan, t: Literals)
    ensures Contains(Compose(p, t), t.secondCharacterLabel + p.outroDetails.secondCharacter)
    ensures Contains(Compose(p, t), t.actionLabel + p.outroDetails.action)
    ensures Contains(Compose(p, t), t.dialogueLabel + p.outroDetails.dialogue + t.quote)
  {
    var parts := OutroParts(p, t);
    assert Sections(p, t)[4] == Concat(parts);
    NestedRunAt(Sections(p, t), 4, parts, 1, 1);
    NestedRunAt(Sections(p, t), 4, parts, 4, 1);
    NestedRunAt(Sections(p, t), 4, parts, 7, 2);
    assert Run(parts, 1, 1) == parts[1] + parts[2];
    assert Run(parts, 4, 1) == parts[4] + parts[5];
    assert Run(parts, 7, 1) == parts[7] + parts[8];
    AtContains(Compose(p, t), Pos(p, t, 4, 1), Run(parts, 1, 1));
    AtContains(Compose(p, t), Pos(p, t, 4, 4), Run(parts, 4, 1));
    AtContains(Compose(p, t), Pos(p, t, 4, 7), Run(parts, 7, 2));
  }

  /** The style line: the style's label, then the main colour; both sit at
      their positions. */
  lemma StyleLaid(p: Plan, t: Literals)
    ensures At(Compose(p, t), Pos(p, t, 5, 2), p.artStyle.Label())
    ensures At(Compose(p, t), Pos(p, t, 5, 4), p.mainColor)
    ensures Contains(Compose(p, t), t.styleLabel + p.artStyle.Label() + t.colorLabel + p.mainColor)
  {
    var parts := StyleParts(p, t);
    assert Sections(p, t)[5] == Concat(parts);
    NestedAt(Sections(p, t), 5, parts, 2);
    NestedAt(Sections(p, t), 5, parts, 4);
    NestedRunAt(Sections(p, t), 5, parts, 1, 3);
    assert Run(parts, 1, 1) == parts[1] + parts[2];
    assert Run(parts, 1, 2) == Run(parts, 1, 1) + parts[3];
    AtContains(Compose(p, t), Pos(p, t, 5, 1), Run(parts, 1, 3));
  }

  /** Character name, appearance, panels, info title and info content, in
      that order. */
  lemma FrontInOrder(p: Plan, t: Literals)
    ensures Pos(p, t, 1, 1) + |p.recommendedCharacter.name| <= Pos(p, t, 1, 3)
    ensures Pos(p, t, 1, 3) + |p.recommendedCharacter.appearance| <= Pos(p, t, 2, 1)
    ensures Pos(p, t, 2, 1) + |PanelBlock(p)| <= Pos(p, t, 3, 1)
    ensures Pos(p, t, 3, 1) + |t.infoTitle| <= Pos(p, t, 3, 4)
  {
    var ss := Sections(p, t);
    var c, pn, inf := CharacterParts(p, t), PanelParts(p, t), InfoParts(p, t);
    assert ss[1] == Concat(c) && ss[2] == Concat(pn) && ss[3] == Concat(inf);
    NestedOrder(ss, 1, c, 1, 1, c, 3);
    NestedOrder(ss, 1, c, 3, 2, pn, 1);
    NestedOrder(ss, 2, pn, 1, 3, inf, 1);
    NestedOrder(ss, 3, inf, 1, 3, inf, 4);
  }

  /** Info content, the outro's second character, action and dialogue, the
      style label and the main colour, in that order. */
  lemma BackInOrder(p: Plan, t: Literals)
    ensures Pos(p, t, 3, 4) + |p.infoTextBlock| <= Pos(p, t, 4, 2)
    ensures Pos(p, t, 4, 2) + |p.outroDetails.secondCharacter| <= Pos(p, t, 4, 5)
    ensures Pos(p, t, 4, 5) + |p.outroDetails.action| <= Pos(p, t, 4, 8)
    ensures Pos(p, t, 4, 8) + |p.outroDetails.dialogue| <= Pos(p, t, 5, 2)
    ensures Pos(p, t, 5, 2) + |p.artStyle.Label()| <= Pos(p, t, 5, 4)
  {
    var ss := Sections(p, t);
    var inf, o, st := InfoParts(p, t), OutroParts(p, t), StyleParts(p, t);
    assert ss[3] == Concat(inf) && ss[4] == Concat(o) && ss[5] == Concat(st);
    NestedOrder(ss, 3, inf, 4, 4, o, 2);
    NestedOrder(ss, 4, o, 2, 4, o, 5);
    NestedOrder(ss, 4, o, 5, 4, o, 8);
    NestedOrder(ss, 4, o, 8, 5, st, 2);
    NestedOrder(ss, 5, st, 2, 5, st, 4);
  }

  /** The values of the request, each at its own position and in the
      template's order, every one ending at or before the next one starts:
      character name, appearance, the panels, the info title, the info
      content, the outro's second character, action and dialogue, then
      style label and main colour. */
  lemma SectionsInOrder(p: Plan, t: Literals)
    ensures var r := Compose(p, t);
      && At(r, Pos(p, t, 1, 1), p.recommendedCharacter.name)
      && At(r, Pos(p, t, 1, 3), p.recommendedCharacter.appearance)
      && At(r, Pos(p, t, 2, 1), PanelBlock(p))
      && At(r, Pos(p, t, 3, 1), t.infoTitle)
      && At(r, Pos(p, t, 3, 4), FlattenNewlines(p.infoTextBlock))
      && At(r, Pos(p, t, 4, 2), p.outroDetails.secondCharacter)
      && At(r, Pos(p, t, 4, 5), p.outroDetails.action)
      && At(r, Pos(p, t, 4, 8), p.outroDetails.dialogue)
      && At(r, Pos(p, t, 5, 2), p.artStyle.Label())
      && At(r, Pos(p, t, 5, 4), p.mainColor)
    ensures Pos(p, t, 1, 1) + |p.recommendedCharacter.name| <= Pos(p, t, 1, 3)
    ensures Pos(p, t, 1, 3) + |p.recommendedCharacter.appearance| <= Pos(p, t, 2, 1)
    ensures Pos(p, t, 2, 1) + |PanelBlock(p)| <= Pos(p, t, 3, 1)
    ensures Pos(p, t, 3, 1) + |t.infoTitle| <= Pos(p, t, 3, 4)
    ensures Pos(p, t, 3, 4) + |p.infoTextBlock| <= Pos(p, t, 4, 2)
    ensures Pos(p, t, 4, 2) + |p.outroDetails.secondCharacter| <= Pos(p, t, 4, 5)
    ensures Pos(p, t, 4, 5) + |p.outroDetails.action| <= Pos(p, t, 4, 8)
    ensures Pos(p, t, 4, 8) + |p.outroDetails.dialogue| <= Pos(p, t, 5, 2)
    ensures Pos(p, t, 5, 2) + |p.artStyle.Label()| <= Pos(p, t, 5, 4)
  {
    CharacterLaid(p, t);
    PanelBlockAt(p, t);
    InfoLaid(p, t);
    OutroLaid(p, t);
    StyleLaid(p, t);
    FrontInOrder(p, t);
    BackInOrder(p, t);
  }

  /** The lines of the request `rebuildPrompt` sends, spelled out. */
  lemma LinesInRequest(p: Plan)
    ensures Contains(BuildRequest(p), "1. Character: " + p.recommendedCharacter.name
      + " (" + p.recommendedCharacter.appearance + ")")
    ensures Contains(BuildRequest(p), "Title: \"TIPS & INFO\"")
    ensures Contains(BuildRequest(p), "Content: \"" + FlattenNewlines(p.infoTextBlock) + "\"")
    ensures Contains(BuildRequest(p), "Second Character: " + p.outroDetails.secondCharacter)
    ensures Contains(BuildRequest(p), "Action: " + p.outroDetails.action)
    ensures Contains(BuildRequest(p), "Dialogue: \"" + p.outroDetails.dialogue + "\"")
    ensures Contains(BuildRequest(p), "Style: " + p.artStyle.Label() + ", Main Color: " + p.mainColor)
  {
    CharacterLaid(p, Template);
    InfoLaid(p, Template);
    AtContains(BuildRequest(p), Pos(p, Template, 3, 1), Template.infoTitle);
    OutroLaid(p, Template);
    StyleLaid(p, Template);
  }

  // ---------------------------------------------------------------------
  // The answer of the text model.
  // ---------------------------------------------------------------------

  /** The text model's reply: its text (which may be missing) or an error. */
  datatype TextReply = Answered(text: Option<string>) | Failed(message: string)

  /** `response.text?.trim() || plan.englishPrompt`: the trimmed answer when
      it holds anything but white space, the previous prompt otherwise. */
  function RecomposedPrompt(text: Option<string>, previous: string): (r: string)
    ensures text.Some? && !AllSpace(text.value) ==> r == Trim(text.value) && r != ""
    ensures text.None? || AllSpace(text.value) ==> r == previous
    ensures previous != "" ==> r != ""
  {
    match text
    case None => previous
    case Some(t) =>
      TrimEmptyIff(t);
      if Trim(t) != "" then Trim(t) else previous
  }

  /** `rebuildPrompt`: sends `BuildRequest(plan)` to the text model, given
      here as a function from request to reply. A failed call is passed on
      as an error; an answer yields the recomposed prompt, which is never
      empty while the plan's prompt is not. */
  function RebuildPrompt(plan: Plan, model: string -> TextReply): (r: Result<string, string>)
    ensures model(BuildRequest(plan)).Failed? ==> r == Err(model(BuildRequest(plan)).message)
    ensures model(BuildRequest(plan)).Answered? ==>
      && r.Ok?
      && r.value == RecomposedPrompt(model(BuildRequest(plan)).text, plan.englishPrompt)
    ensures r.Ok? && plan.englishPrompt != "" ==> r.value != ""
  {
    match model(BuildRequest(plan))
    case Failed(message) => Err(message)
    case Answered(text) => Ok(RecomposedPrompt(text, plan.englishPrompt))
  }
}
