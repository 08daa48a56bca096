/**
 * The Indonesian prompt assembler (`generateDetailedIndonesianPrompt`).
 *
 * `Parts` is the specification: the list of sentence parts in the order the
 * source pushes them, each clause included only when its field is non-blank
 * after trimming. `Assemble` filters out blank parts and joins the rest with
 * one space. `GenerateDetailedIndonesianPrompt` is the step-by-step version
 * that pushes parts and grows the scene core, proved equal to `Assemble`.
 */
module Assembler {
  import opened JsStrings
  import opened Types

  const Intro := "Visualisasikan sebuah adegan"
  /** Written as two literals: the solver cannot read single characters
      out of a string literal this long. */
  const QualitySentence :=
    "Pastikan hasil akhir " + "berkualitas tinggi, sangat detail, fokus tajam, dan secara visual memukau."

  /** The part `part` when `v` is not blank, otherwise nothing: the source's
      `if (v.trim()) parts.push(part)`. */
  function When(v: string, part: string): seq<string> {
    if Blank(v) then [] else [part]
  }

  /** `s` continued by `lead + trim(v)`, or `s` itself when `v` is blank. */
  function Continue(s: string, lead: string, v: string): string {
    if Blank(v) then s else s + lead + Trim(v)
  }

  /** The scene-core sentence. */
  function SceneCore(p: PromptState): string {
    if Blank(p.subjek) then Intro + " yang menakjubkan dan penuh detail" + "."
    else Continue(Continue(Intro + " yang menampilkan " + Trim(p.subjek), " sedang ", p.aksi),
                  " dengan ekspresi ", p.ekspresi) + "."
  }

  /** The setting parts: the place, then the time, or a lone period when
      there is a place but no time. */
  function SettingParts(p: PromptState): seq<string> {
    When(p.tempat, "Berlatar di " + Trim(p.tempat))
    + (if !Blank(p.waktu) then ["pada " + Trim(p.waktu) + "."] else When(p.tempat, "."))
  }

  /** The camera value as rendered: trimmed, underscores turned into spaces. */
  function CameraValue(v: string): string {
    ReplaceUnderscores(Trim(v))
  }

  /** The visual-style fragments, in the order style, lighting, camera, mood. */
  function VisualFragments(p: PromptState): seq<string> {
    When(p.gayaVideo, "dalam gaya video " + Trim(p.gayaVideo))
    + When(p.pencahayaan, "dengan pencahayaan " + Trim(p.pencahayaan))
    + When(p.gerakanKamera, "menggunakan gerakan kamera " + CameraValue(p.gerakanKamera))
    + When(p.suasanaVideo, "menciptakan suasana " + Trim(p.suasanaVideo))
  }

  /** The visual-style sentence, when there is at least one fragment. */
  function VisualParts(p: PromptState): seq<string> {
    if |VisualFragments(p)| == 0 then [] else [Join(VisualFragments(p), ", ") + "."]
  }

  /** Every part, in the order the source pushes them. */
  function Parts(p: PromptState): seq<string> {
    [SceneCore(p)]
    + SettingParts(p)
    + VisualParts(p)
    + When(p.suaraMusik, "Diiringi oleh " + Trim(p.suaraMusik) + ".")
    + When(p.kalimatYangDiucapkan, "Terdapat dialog: {{" + Trim(p.kalimatYangDiucapkan) + "}}.")
    + When(p.detailTambahan, "Detail tambahan: " + Trim(p.detailTambahan) + ".")
    + [QualitySentence]
    + When(p.negativePrompt, "Hindari elemen seperti: " + Trim(p.negativePrompt) + ".")
  }

  /** `parts.filter(part => part.trim() !== "")`: keeps exactly the non-blank
      parts, in order. */
  function DropBlank(parts: seq<string>): seq<string> {
    if parts == [] then []
    else if Blank(parts[0]) then DropBlank(parts[1..])
    else [parts[0]] + DropBlank(parts[1..])
  }

  /** The filter keeps exactly the non-blank parts of the input, and keeps
      a list with no blank part unchanged. */
  lemma {:induction false} DropBlankSpec(parts: seq<string>)
    ensures |DropBlank(parts)| <= |parts|
    ensures forall x :: x in DropBlank(parts) ==> x in parts && !Blank(x)
    ensures forall x :: x in parts && !Blank(x) ==> x in DropBlank(parts)
    ensures (forall x :: x in parts ==> !Blank(x)) ==> DropBlank(parts) == parts
  {
    if parts != [] {
      DropBlankSpec(parts[1..]);
      assert forall x :: x in parts[1..] ==> x in parts;
      if !Blank(parts[0]) && (forall x :: x in parts ==> !Blank(x)) {
        assert parts == [parts[0]] + parts[1..];
      }
    }
  }

  /** Filtering a concatenation filters each side in place: the kept parts
      stay in their input order. */
  lemma {:induction false} DropBlankAppend(a: seq<string>, b: seq<string>)
    ensures DropBlank(a + b) == DropBlank(a) + DropBlank(b)
  {
    if a != [] {
      assert (a + b)[1..] == a[1..] + b;
      DropBlankAppend(a[1..], b);
    } else {
      assert a + b == b;
    }
  }

  /** The assembled prompt. */
  function Assemble(p: PromptState): string {
    Join(DropBlank(Parts(p)), " ")
  }

  /** `if (v.trim()) list.push(part)`: pushes `part` exactly when `v` is not blank. */
  method PushIfPresent(list: seq<string>, v: string, part: string) returns (r: seq<string>)
    ensures r == list + When(v, part)
  {
    r := list;
    if !Blank(v) {
      r := r + [part];
    }
  }

  /** The scene-core section: the sentence grown by appends, before its
      closing period. */
  method ComposeSceneCore(inputs: PromptState) returns (sceneCore: string)
    ensures sceneCore + "." == SceneCore(inputs)
  {
    sceneCore := Intro;
    if !Blank(inputs.subjek) {
      sceneCore := sceneCore + " yang menampilkan " + Trim(inputs.subjek);
      if !Blank(inputs.aksi) { sceneCore := sceneCore + " sedang " + Trim(inputs.aksi); }
      if !Blank(inputs.ekspresi) { sceneCore := sceneCore + " dengan ekspresi " + Trim(inputs.ekspresi); }
    } else {
      sceneCore := sceneCore + " yang menakjubkan dan penuh detail";
    }
  }

  /** The visual-style section: the fragments pushed in the order style,
      lighting, camera, mood. */
  method CollectVisualStyleParts(inputs: PromptState) returns (visualStyleParts: seq<string>)
    ensures visualStyleParts == VisualFragments(inputs)
  {
    visualStyleParts := [];
    visualStyleParts := PushIfPresent(visualStyleParts, inputs.gayaVideo,
      "dalam gaya video " + Trim(inputs.gayaVideo));
    assert visualStyleParts == When(inputs.gayaVideo, "dalam gaya video " + Trim(inputs.gayaVideo));
    visualStyleParts := PushIfPresent(visualStyleParts, inputs.pencahayaan,
      "dengan pencahayaan " + Trim(inputs.pencahayaan));
    visualStyleParts := PushIfPresent(visualStyleParts, inputs.gerakanKamera,
      "menggunakan gerakan kamera " + ReplaceUnderscores(Trim(inputs.gerakanKamera)));
    visualStyleParts := PushIfPresent(visualStyleParts, inputs.suasanaVideo,
      "menciptakan suasana " + Trim(inputs.suasanaVideo));
  }

  /** The assembler as the source runs it: a parts list grown by pushes,
      section by section. It computes `Assemble`. */
  method GenerateDetailedIndonesianPrompt(inputs: PromptState) returns (prompt: string)
    ensures prompt == Assemble(inputs)
  {
    var parts: seq<string> := [];

    // Scene core
    var sceneCore := ComposeSceneCore(inputs);
    parts := parts + [sceneCore + "."];

    // Setting
    parts := PushIfPresent(parts, inputs.tempat, "Berlatar di " + Trim(inputs.tempat));
    if !Blank(inputs.waktu) {
      parts := parts + ["pada " + Trim(inputs.waktu) + "."];
    } else {
      parts := PushIfPresent(parts, inputs.tempat, ".");
    }
    assert parts == [SceneCore(inputs)] + SettingParts(inputs);

    // Visual style
    var visualStyleParts := CollectVisualStyleParts(inputs);
    if |visualStyleParts| > 0 {
      parts := parts + [Join(visualStyleParts, ", ") + "."];
    }
    assert parts == [SceneCore(inputs)] + SettingParts(inputs) + VisualParts(inputs);

    // Audio and dialogue
    parts := PushIfPresent(parts, inputs.suaraMusik, "Diiringi oleh " + Trim(inputs.suaraMusik) + ".");
    parts := PushIfPresent(parts, inputs.kalimatYangDiucapkan,
      "Terdapat dialog: {{" + Trim(inputs.kalimatYangDiucapkan) + "}}.");

    // Additional details
    parts := PushIfPresent(parts, inputs.detailTambahan, "Detail tambahan: " + Trim(inputs.detailTambahan) + ".");

    // Enhancers and negative prompt
    parts := parts + [QualitySentence];
    parts := PushIfPresent(parts, inputs.negativePrompt,
      "Hindari elemen seperti: " + Trim(inputs.negativePrompt) + ".");
    assert parts == Parts(inputs);

    prompt := Join(DropBlank(parts), " ");
  }
}
