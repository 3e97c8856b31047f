/** The client-side prompt composer: two static lookup tables (camera angle
    and aspect ratio to a descriptive hint) and the template that turns the
    form's six descriptive fields into the prompt sent for generation. The
    form fields, which the page reads from the DOM, are parameters here. */
module PromptComposer {
  import opened JsValues

  /** The 20 camera angles offered in the angle drop-down, in menu order.
      Two of them are spelled with the typographic apostrophe U+2019. */
  const Angles: seq<string> := [
    "Eye-Level Shot", "Dutch Angle", "Rear View", "Leading Lines", "High-Angle Shot",
    "Point of View", "Symmetrical Framing", "Frame Within a Frame", "Low-Angle Shot",
    "Over-the-Shoulder Shot", "Asymmetrical Framing", "Golden Ratio", "Bird\U{2019}s-Eye View",
    "Profile Shot", "Rule of Thirds", "Negative Space", "Worm\U{2019}s-Eye View",
    "Three-Quarter View", "Center Framing", "Fill the Frame"
  ]

  const AngleHint: seq<(string, string)> := [
    ("Eye-Level Shot", "camera at subject eye height, natural balanced perspective"),
    ("Dutch Angle", "slightly tilted horizon for dynamic tension"),
    ("Rear View", "subject facing away from camera, back visible"),
    ("Leading Lines", "strong leading lines guide the eyes to subject"),
    ("High-Angle Shot", "camera above subject looking down"),
    ("Point of View", "first-person perspective"),
    ("Symmetrical Framing", "perfectly centered, left-right symmetry"),
    ("Frame Within a Frame", "subject framed by natural elements"),
    ("Low-Angle Shot", "camera below subject looking upward"),
    ("Over-the-Shoulder Shot", "behind the shoulder showing subject\U{2019}s view"),
    ("Asymmetrical Framing", "off-center for dynamic balance"),
    ("Golden Ratio", "aligned to golden spiral focal point"),
    ("Bird\U{2019}s-Eye View", "top-down overhead camera"),
    ("Profile Shot", "clean side view"),
    ("Rule of Thirds", "aligned on thirds grid intersection"),
    ("Negative Space", "minimalist with large empty space"),
    ("Worm\U{2019}s-Eye View", "ultra-low upward angle"),
    ("Three-Quarter View", "3/4 facial angle"),
    ("Center Framing", "perfectly centered"),
    ("Fill the Frame", "tight crop, extreme close-up")
  ]

  const RatioHint: seq<(string, string)> := [
    ("1:1", "square ratio 1:1"),
    ("9:16", "vertical ratio 9:16"),
    ("16:9", "horizontal ratio 16:9"),
    ("4:5", "portrait ratio 4:5"),
    ("3:2", "ratio 3:2")
  ]

  /** The keys of a table, in order. */
  function Names(table: seq<(string, string)>): (ks: seq<string>)
    ensures |ks| == |table| && forall i :: 0 <= i < |table| ==> ks[i] == table[i].0
  {
    seq(|table|, i requires 0 <= i < |table| => table[i].0)
  }

  predicate Distinct(xs: seq<string>) {
    forall i, j :: 0 <= i < j < |xs| ==> xs[i] != xs[j]
  }

  /** Property access `table[key]` on an object literal: the value of the
      entry with that key, `None` (read as `undefined`) for a key the literal
      does not define. */
  function Lookup(table: seq<(string, string)>, key: string): Option<string> {
    if table == [] then None
    else if table[0].0 == key then Some(table[0].1)
    else Lookup(table[1..], key)
  }

  /** A lookup fails exactly for the keys the table does not list. */
  lemma {:induction false} LookupDefined(table: seq<(string, string)>, key: string)
    ensures Lookup(table, key).Some? <==> key in Names(table)
  {
    if table != [] {
      assert Names(table) == [table[0].0] + Names(table[1..]);
      LookupDefined(table[1..], key);
    }
  }

  /** A successful lookup returns a value the table pairs with the key. */
  lemma {:induction false} LookupSound(table: seq<(string, string)>, key: string)
    ensures Lookup(table, key).Some? ==> (key, Lookup(table, key).value) in table
  {
    if table != [] && table[0].0 != key {
      LookupSound(table[1..], key);
    }
  }

  /** With distinct keys, every entry is found by its own key. */
  lemma {:induction false} LookupEntry(table: seq<(string, string)>, i: nat)
    requires Distinct(Names(table)) && i < |table|
    ensures Lookup(table, table[i].0) == Some(table[i].1)
  {
    if i > 0 {
      assert Names(table)[0] != Names(table)[i];
      assert Names(table[1..]) == Names(table)[1..];
      LookupEntry(table[1..], i - 1);
    }
  }

  const DefaultBrief := "A product photo for e-commerce marketing."
  const Header := "Product/UGC Image.\nSubject: "
  const EmDash := " \U{2014} "
  const BestNatural := "Camera angle: best-natural."
  const CustomFallback := "custom aesthetic"
  const Lighting := " with soft realistic lighting."
  const NoOverlay := "No text overlay."

  const Policy := "photo-realistic, high detail, clean composition, accurate proportions, no watermark, no brand logos, non-copyrighted style, safe-for-work, professional studio quality"

  /** The three fixed lines between the background clause and the constraints. */
  const StyleBlock :=
    "Style: cinematic yet natural lighting, soft shadows, crisp focus, realistic materials, true-to-color.\n"
    + "Composition: rule-of-thirds awareness, subtle depth of field, commercial photography look.\n"
    + "Output: photorealistic single frame."

  /** The brief, trimmed, or the fallback sentence when nothing but
      whitespace was typed. */
  function Subject(brief: string): (s: string)
    ensures s != ""
    ensures IsBlank(brief) ==> s == DefaultBrief
    ensures !IsBlank(brief) ==> s == Trim(brief)
  {
    OrElse(Trim(brief), DefaultBrief)
  }

  /** Interpolating `ANGLE_HINT[angle]`: a name missing from the table reads
      as `undefined`. */
  function AngleHintText(angle: string): string {
    match Lookup(AngleHint, angle)
    case Some(h) => h
    case None => "undefined"
  }

  function AngleText(angle: string): string {
    if angle != "" then "Camera angle: " + angle + EmDash + AngleHintText(angle) + "."
    else BestNatural
  }

  /** `RATIO_HINT[ratio] || ratio`: a missing or empty hint falls back to the
      ratio code itself. */
  function RatioDescription(ratio: string): string {
    match Lookup(RatioHint, ratio)
    case Some(h) => OrElse(h, ratio)
    case None => ratio
  }

  function RatioText(ratio: string): string {
    "Aspect ratio: " + RatioDescription(ratio) + "."
  }

  function BackgroundText(bgMode: string, bgCustom: string): string {
    if bgMode == "Custom" then "Background: " + OrElse(Trim(bgCustom), CustomFallback) + Lighting
    else "Background: " + bgMode + Lighting
  }

  function OverlayText(fontStyle: string): string {
    if fontStyle != "None" then "Optional minimal overlay using " + fontStyle + " font for label if needed."
    else NoOverlay
  }

  /** The prompt template with its five interpolated clauses as
      parameters: fixed text alternating with the clauses, in order. */
  function Compose(subject: string, angleText: string, ratioText: string,
                   bgText: string, overlay: string): string
  {
    Concat([Header, subject, ".\n", angleText, "\n", ratioText, "\n", bgText, "\n",
            StyleBlock, "\nConstraints: ", Policy, ". ", overlay])
  }

  /** A segment standing alone between a segment ending in a newline and a
      bare newline forms a whole line of the text. */
  lemma LineOfSegments(xs: seq<string>, i: nat)
    requires i + 3 <= |xs|
    requires xs[i] != "" && xs[i][|xs[i]| - 1] == '\n' && xs[i + 2] == "\n"
    ensures IsInfix("\n" + xs[i + 1] + "\n", Concat(xs))
  {
    var x, m := xs[i], xs[i + 1];
    SegmentsInfix(xs, i, i + 3);
    assert xs[i..i + 3] == [x, m, "\n"];
    Concat3(x, m, "\n");
    var line := "\n" + m + "\n";
    assert x + m + "\n" == x[..|x| - 1] + line;
    InfixOfConcat(x[..|x| - 1], line, "");
    assert x[..|x| - 1] + line + "" == x + m + "\n";
    InfixTransitive(line, x + m + "\n", Concat(xs));
  }

  /** The layout of the template: header and subject first, then the angle,
      ratio and background clauses each on a line of its own, and the
      constraint line with the overlay clause last. */
  lemma {:induction false} ComposeLayout(subject: string, angleText: string, ratioText: string,
                                         bgText: string, overlay: string)
    ensures var p := Compose(subject, angleText, ratioText, bgText, overlay);
      && Header + subject + ".\n" <= p
      && IsInfix("\n" + angleText + "\n", p)
      && IsInfix("\n" + ratioText + "\n", p)
      && IsInfix("\n" + bgText + "\n", p)
      && IsSuffix("\nConstraints: " + Policy + ". " + overlay, p)
      && IsSuffix(overlay, p)
  {
    var xs := [Header, subject, ".\n", angleText, "\n", ratioText, "\n", bgText, "\n",
               StyleBlock, "\nConstraints: ", Policy, ". ", overlay];
    var p := Concat(xs);
    SegmentsPrefix(xs, 3);
    assert xs[..3] == [Header, subject, ".\n"];
    Concat3(Header, subject, ".\n");
    LineOfSegments(xs, 2);
    LineOfSegments(xs, 4);
    LineOfSegments(xs, 6);
    SegmentsSuffix(xs, 10);
    assert xs[10..] == ["\nConstraints: ", Policy, ". ", overlay];
    Concat4("\nConstraints: ", Policy, ". ", overlay);
    SegmentsSuffix(xs, 13);
    assert xs[13..] == [overlay];
    assert Concat([overlay]) == overlay;
  }

  /** The first four lines of the template in order: header and subject,
      then the angle, ratio and background clauses, each closed by a
      newline, before anything else. */
  lemma {:induction false} ComposeOrder(subject: string, angleText: string, ratioText: string,
                                        bgText: string, overlay: string)
    ensures Header + subject + ".\n" + angleText + "\n" + ratioText + "\n" + bgText + "\n"
            <= Compose(subject, angleText, ratioText, bgText, overlay)
  {
    var xs := [Header, subject, ".\n", angleText, "\n", ratioText, "\n", bgText, "\n",
               StyleBlock, "\nConstraints: ", Policy, ". ", overlay];
    SegmentsPrefix(xs, 9);
    var ys := xs[..9];
    assert ys[..4] == [Header, subject, ".\n", angleText];
    assert ys[4..][1..] == [ratioText, "\n", bgText, "\n"];
    ConcatSplit(ys, 4);
    Concat4(Header, subject, ".\n", angleText);
    Concat4(ratioText, "\n", bgText, "\n");
  }

  /** The whole prompt: it opens with the header and the subject label and
      closes with the constraint line, whose last clause is the overlay
      clause. */
  function BuildPrompt(brief: string, angle: string, ratio: string,
                       bgMode: string, bgCustom: string, fontStyle: string): (p: string)
    ensures Header <= p
    ensures IsSuffix("\nConstraints: " + Policy + ". " + OverlayText(fontStyle), p)
  {
    var subject, angleText, ratioText := Subject(brief), AngleText(angle), RatioText(ratio);
    var bgText, overlay := BackgroundText(bgMode, bgCustom), OverlayText(fontStyle);
    ComposeLayout(subject, angleText, ratioText, bgText, overlay);
    Compose(subject, angleText, ratioText, bgText, overlay)
  }

  /** Where each clause of the prompt sits: the subject right after the
      header, then the angle, ratio and background clauses in that order,
      each on a line of its own, and the overlay clause at the very end. */
  lemma PromptLayout(brief: string, angle: string, ratio: string,
                     bgMode: string, bgCustom: string, fontStyle: string)
    ensures var p := BuildPrompt(brief, angle, ratio, bgMode, bgCustom, fontStyle);
      && Header + Subject(brief) + ".\n" <= p
      && Header + Subject(brief) + ".\n" + AngleText(angle) + "\n" + RatioText(ratio) + "\n"
         + BackgroundText(bgMode, bgCustom) + "\n" <= p
      && IsInfix("\n" + AngleText(angle) + "\n", p)
      && IsInfix("\n" + RatioText(ratio) + "\n", p)
      && IsInfix("\n" + BackgroundText(bgMode, bgCustom) + "\n", p)
      && IsSuffix(OverlayText(fontStyle), p)
  {
    ComposeLayout(Subject(brief), AngleText(angle), RatioText(ratio),
                  BackgroundText(bgMode, bgCustom), OverlayText(fontStyle));
    ComposeOrder(Subject(brief), AngleText(angle), RatioText(ratio),
                 BackgroundText(bgMode, bgCustom), OverlayText(fontStyle));
  }

  lemma AngleNamesInOrder()
    ensures |Angles| == 20 && Names(AngleHint) == Angles
  {
  }

  lemma AnglesDistinct()
    ensures Distinct(Angles)
  {
  }

  /** The angle menu and the hint table are in lockstep: the table's keys
      are exactly the 20 menu names, in menu order and without repeats, so
      every menu angle has a hint and no other name does. */
  lemma AngleTablesAgree()
    ensures |Angles| == 20 && Names(AngleHint) == Angles && Distinct(Angles)
    ensures forall a :: a in Angles <==> Lookup(AngleHint, a).Some?
  {
    AngleNamesInOrder();
    AnglesDistinct();
    forall a
      ensures a in Angles <==> Lookup(AngleHint, a).Some?
    {
      LookupDefined(AngleHint, a);
    }
  }

  /** Two menu names and one angle hint are spelled with the typographic
      apostrophe. */
  lemma AngleNamesUseTypographicApostrophe()
    ensures Angles[12] == "Bird\U{2019}s-Eye View" && Angles[16] == "Worm\U{2019}s-Eye View"
    ensures AngleHint[9].1 == "behind the shoulder showing subject\U{2019}s view"
  {
  }

  /** Names must match exactly: the ASCII spelling of an apostrophe name is
      not a menu angle, so it finds no hint. */
  lemma AsciiApostropheIsNoAngle()
    ensures "Bird's-Eye View" !in Angles && "Worm's-Eye View" !in Angles
  {
  }

  /** The menu angle at position `k` is found in the table with the hint
      written beside it. */
  lemma MenuAngleFound(k: nat)
    requires k < |Angles|
    ensures Angles[k] != "" && Lookup(AngleHint, Angles[k]) == Some(AngleHint[k].1)
  {
    AngleNamesInOrder();
    AnglesDistinct();
    LookupEntry(AngleHint, k);
  }

  /** The five ratio codes, each with a non-empty hint that ends in the code
      itself. */
  lemma RatioHintsNameTheirRatio()
    ensures Names(RatioHint) == ["1:1", "9:16", "16:9", "4:5", "3:2"]
    ensures Distinct(Names(RatioHint))
    ensures forall i :: 0 <= i < |RatioHint| ==> RatioHint[i].1 != "" && IsSuffix(RatioHint[i].0, RatioHint[i].1)
  {
    assert Names(RatioHint) == ["1:1", "9:16", "16:9", "4:5", "3:2"];
  }

  /** Whatever a ratio code finds in the table is non-empty and ends with
      that code. */
  lemma RatioHintEndsWithCode(ratio: string)
    ensures Lookup(RatioHint, ratio).Some? ==>
      Lookup(RatioHint, ratio).value != "" && IsSuffix(ratio, Lookup(RatioHint, ratio).value)
  {
    RatioHintsNameTheirRatio();
    LookupSound(RatioHint, ratio);
  }

  /** The prompt is never empty. */
  lemma PromptNotEmpty(brief: string, angle: string, ratio: string,
                       bgMode: string, bgCustom: string, fontStyle: string)
    ensures BuildPrompt(brief, angle, ratio, bgMode, bgCustom, fontStyle) != ""
  {
    assert |Header| <= |BuildPrompt(brief, angle, ratio, bgMode, bgCustom, fontStyle)|;
  }

  /** Line two of the prompt: the trimmed brief after "Subject: ", or the
      fallback sentence for a blank brief (the template's own full stop
      follows either one). */
  lemma SubjectLine(brief: string, angle: string, ratio: string,
                    bgMode: string, bgCustom: string, fontStyle: string)
    ensures var p := BuildPrompt(brief, angle, ratio, bgMode, bgCustom, fontStyle);
      && (IsBlank(brief) ==> Header + DefaultBrief + ".\n" <= p)
      && (!IsBlank(brief) ==> Header + Trim(brief) + ".\n" <= p)
  {
    PromptLayout(brief, angle, ratio, bgMode, bgCustom, fontStyle);
  }

  /** Re-bracketing a clause with its surrounding newlines, kept apart from
      the tables so that the solver sees only the shape. */
  lemma LineShape(head: string, x: string, y: string, z: string, tail: string)
    ensures "\n" + (head + x + y + z + tail) + "\n" == "\n" + head + x + y + z + (tail + "\n")
  {
  }

  lemma ShortLineShape(head: string, x: string, tail: string)
    ensures "\n" + (head + x + tail) + "\n" == "\n" + head + x + tail + "\n"
  {
  }

  /** What the camera-angle line holds, case by case. */
  lemma AngleClause(angle: string)
    ensures var line := "\n" + AngleText(angle) + "\n";
      && (angle == "" ==> line == "\n" + BestNatural + "\n")
      && (angle != "" ==> line == "\n" + "Camera angle: " + angle + EmDash + AngleHintText(angle) + ".\n")
  {
    LineShape("Camera angle: ", angle, EmDash, AngleHintText(angle), ".");
  }

  /** The text standing in for the hint: the table's entry, or `undefined`. */
  lemma AngleHintCases(angle: string)
    ensures Lookup(AngleHint, angle).Some? ==> AngleHintText(angle) == Lookup(AngleHint, angle).value
    ensures Lookup(AngleHint, angle).None? ==> AngleHintText(angle) == "undefined"
  {
  }

  /** The camera-angle line: the generic clause for no angle, the name and
      its hint for an angle the table knows, and `undefined` for any other
      name. */
  lemma AngleLine(brief: string, angle: string, ratio: string,
                  bgMode: string, bgCustom: string, fontStyle: string)
    ensures var p := BuildPrompt(brief, angle, ratio, bgMode, bgCustom, fontStyle);
      && (angle == "" ==> IsInfix("\n" + BestNatural + "\n", p))
      && (forall h :: angle != "" && Lookup(AngleHint, angle) == Some(h) ==>
            IsInfix("\n" + "Camera angle: " + angle + EmDash + h + ".\n", p))
      && (angle != "" && angle !in Angles ==>
            IsInfix("\n" + "Camera angle: " + angle + EmDash + "undefined" + ".\n", p))
  {
    PromptLayout(brief, angle, ratio, bgMode, bgCustom, fontStyle);
    AngleClause(angle);
    AngleHintCases(angle);
    AngleTablesAgree();
  }

  /** An angle the table knows puts its hint into the prompt. */
  lemma KnownAngleLine(brief: string, angle: string, h: string, ratio: string,
                       bgMode: string, bgCustom: string, fontStyle: string)
    requires angle != "" && Lookup(AngleHint, angle) == Some(h)
    ensures IsInfix("\n" + "Camera angle: " + angle + EmDash + h + ".\n",
                    BuildPrompt(brief, angle, ratio, bgMode, bgCustom, fontStyle))
  {
    AngleLine(brief, angle, ratio, bgMode, bgCustom, fontStyle);
  }

  /** Every menu angle puts its own hint into the prompt. */
  lemma MenuAngleHinted(k: nat, brief: string, ratio: string,
                        bgMode: string, bgCustom: string, fontStyle: string)
    requires k < |Angles|
    ensures IsInfix("\n" + "Camera angle: " + Angles[k] + EmDash + AngleHint[k].1 + ".\n",
                    BuildPrompt(brief, Angles[k], ratio, bgMode, bgCustom, fontStyle))
  {
    MenuAngleFound(k);
    KnownAngleLine(brief, Angles[k], AngleHint[k].1, ratio, bgMode, bgCustom, fontStyle);
  }

  /** The ratio code is the tail of whatever describes it. */
  lemma RatioDescriptionEndsWithCode(ratio: string)
    ensures IsSuffix(ratio, RatioDescription(ratio))
    ensures Lookup(RatioHint, ratio).Some? ==> RatioDescription(ratio) == Lookup(RatioHint, ratio).value
    ensures Lookup(RatioHint, ratio).None? ==> RatioDescription(ratio) == ratio
  {
    RatioHintEndsWithCode(ratio);
  }

  lemma SuffixInLine(head: string, d: string, r: string, tail: string)
    requires IsSuffix(r, d)
    ensures IsInfix(r, "\n" + (head + d + tail) + "\n")
  {
    var a := "\n" + head + d[..|d| - |r|];
    assert "\n" + (head + d + tail) + "\n" == a + r + (tail + "\n");
    InfixOfConcat(a, r, tail + "\n");
  }

  /** A ratio line whose description ends in the code contains the code. */
  lemma CodeInRatioLine(d: string, ratio: string)
    requires IsSuffix(ratio, d)
    ensures var line := "\n" + ("Aspect ratio: " + d + ".") + "\n";
      && line == "\n" + "Aspect ratio: " + d + ".\n"
      && IsInfix(ratio, line)
  {
    SuffixInLine("Aspect ratio: ", d, ratio, ".");
    LineShape("Aspect ratio: ", d, "", "", ".");
  }

  /** What the aspect-ratio line holds: the hint or the code, and in both
      cases the code itself. */
  lemma RatioClause(ratio: string)
    ensures var line := "\n" + RatioText(ratio) + "\n";
      && line == "\n" + "Aspect ratio: " + RatioDescription(ratio) + ".\n"
      && IsInfix(ratio, line)
  {
    RatioDescriptionEndsWithCode(ratio);
    CodeInRatioLine(RatioDescription(ratio), ratio);
  }

  /** The aspect-ratio line: a known ratio gives its hint, any other code is
      written out verbatim; either way the code itself appears in the prompt. */
  lemma RatioLine(brief: string, angle: string, ratio: string,
                  bgMode: string, bgCustom: string, fontStyle: string)
    ensures var p := BuildPrompt(brief, angle, ratio, bgMode, bgCustom, fontStyle);
      && (forall h :: Lookup(RatioHint, ratio) == Some(h) ==> IsInfix("\n" + "Aspect ratio: " + h + ".\n", p))
      && (Lookup(RatioHint, ratio).None? ==> IsInfix("\n" + "Aspect ratio: " + ratio + ".\n", p))
      && IsInfix(ratio, p)
  {
    var p := BuildPrompt(brief, angle, ratio, bgMode, bgCustom, fontStyle);
    PromptLayout(brief, angle, ratio, bgMode, bgCustom, fontStyle);
    RatioClause(ratio);
    RatioDescriptionEndsWithCode(ratio);
    InfixTransitive(ratio, "\n" + RatioText(ratio) + "\n", p);
  }

  /** What the background line holds, case by case. */
  lemma BackgroundClause(bgMode: string, bgCustom: string)
    ensures var line := "\n" + BackgroundText(bgMode, bgCustom) + "\n";
      && (bgMode == "Custom" && IsBlank(bgCustom) ==> line == "\n" + "Background: " + CustomFallback + Lighting + "\n")
      && (bgMode == "Custom" && !IsBlank(bgCustom) ==> line == "\n" + "Background: " + Trim(bgCustom) + Lighting + "\n")
      && (bgMode != "Custom" ==> line == "\n" + "Background: " + bgMode + Lighting + "\n")
  {
    if bgMode == "Custom" {
      var shown := OrElse(Trim(bgCustom), CustomFallback);
      assert IsBlank(bgCustom) ==> shown == CustomFallback;
      assert !IsBlank(bgCustom) ==> shown == Trim(bgCustom);
      ShortLineShape("Background: ", shown, Lighting);
    } else {
      ShortLineShape("Background: ", bgMode, Lighting);
    }
  }

  /** The background line: a custom background uses the trimmed custom text,
      or the generic phrase when that is blank; any other mode is named as
      it is. */
  lemma BackgroundLine(brief: string, angle: string, ratio: string,
                       bgMode: string, bgCustom: string, fontStyle: string)
    ensures var p := BuildPrompt(brief, angle, ratio, bgMode, bgCustom, fontStyle);
      && (bgMode == "Custom" && IsBlank(bgCustom) ==>
            IsInfix("\n" + "Background: " + CustomFallback + Lighting + "\n", p))
      && (bgMode == "Custom" && !IsBlank(bgCustom) ==>
            IsInfix("\n" + "Background: " + Trim(bgCustom) + Lighting + "\n", p))
      && (bgMode != "Custom" ==> IsInfix("\n" + "Background: " + bgMode + Lighting + "\n", p))
  {
    PromptLayout(brief, angle, ratio, bgMode, bgCustom, fontStyle);
    BackgroundClause(bgMode, bgCustom);
  }

  /** The overlay clause names the font unless it is "None"; the two forms
      differ in their last-but-one character. */
  lemma OverlayClause(fontStyle: string)
    ensures fontStyle == "None" <==> IsSuffix(NoOverlay, OverlayText(fontStyle))
  {
    var o := OverlayText(fontStyle);
    if fontStyle != "None" {
      assert o[|o| - 2] == 'd';
      assert NoOverlay[|NoOverlay| - 2] == 'y';
    }
  }

  lemma SuffixTransitive(t: string, u: string, s: string)
    requires IsSuffix(u, s) && |t| <= |u|
    ensures IsSuffix(t, u) <==> IsSuffix(t, s)
  {
    assert s[|s| - |t|..] == u[|u| - |t|..];
  }

  /** The prompt ends in "No text overlay." exactly when the font is "None";
      any other font is named in the closing clause. */
  lemma OverlayLine(brief: string, angle: string, ratio: string,
                    bgMode: string, bgCustom: string, fontStyle: string)
    ensures var p := BuildPrompt(brief, angle, ratio, bgMode, bgCustom, fontStyle);
      && (fontStyle == "None" <==> IsSuffix(NoOverlay, p))
      && (fontStyle != "None" ==>
            IsSuffix("Optional minimal overlay using " + fontStyle + " font for label if needed.", p))
  {
    var p := BuildPrompt(brief, angle, ratio, bgMode, bgCustom, fontStyle);
    var o := OverlayText(fontStyle);
    PromptLayout(brief, angle, ratio, bgMode, bgCustom, fontStyle);
    OverlayClause(fontStyle);
    SuffixTransitive(NoOverlay, o, p);
  }
}
