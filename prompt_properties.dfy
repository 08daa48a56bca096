/**
 * What the assembled Indonesian prompt is guaranteed to look like: which
 * sentences it contains for which inputs, where it starts and ends, and that
 * it depends on each field only through the field's trimmed value.
 */
module PromptProperties {
  import opened JsStrings
  import opened Types
  import opened Assembler

  /** A part that starts with a non-whitespace character. */
  predicate Solid(x: string) {
    x != [] && !IsWhitespace(x[0])
  }

  /** Every part starts with a non-whitespace character. */
  predicate AllSolid(parts: seq<string>) {
    forall x :: x in parts ==> Solid(x)
  }

  lemma WhenSolid(v: string, part: string)
    requires Solid(part)
    ensures AllSolid(When(v, part))
  {
  }

  lemma SolidPrefix(lead: string, rest: string)
    requires Solid(lead)
    ensures Solid(lead + rest)
  {
  }

  lemma SceneCoreSolid(p: PromptState)
    ensures Solid(SceneCore(p))
  {
  }

  lemma ContinueSolid(s: string, lead: string, v: string)
    requires Solid(s)
    ensures Solid(Continue(s, lead, v))
  {
  }

  lemma SettingSolid(p: PromptState)
    ensures AllSolid(SettingParts(p))
  {
  }

  lemma VisualSolid(p: PromptState)
    ensures AllSolid(VisualParts(p))
  {
  }

  lemma AllSolidAppend(a: seq<string>, b: seq<string>)
    requires AllSolid(a) && AllSolid(b)
    ensures AllSolid(a + b)
  {
  }

  lemma ClausesSolid(p: PromptState)
    ensures AllSolid(When(p.suaraMusik, "Diiringi oleh " + Trim(p.suaraMusik) + "."))
    ensures AllSolid(When(p.kalimatYangDiucapkan, "Terdapat dialog: {{" + Trim(p.kalimatYangDiucapkan) + "}}."))
    ensures AllSolid(When(p.detailTambahan, "Detail tambahan: " + Trim(p.detailTambahan) + "."))
    ensures AllSolid([QualitySentence])
    ensures AllSolid(When(p.negativePrompt, "Hindari elemen seperti: " + Trim(p.negativePrompt) + "."))
  {
  }

  /** Every part the assembler pushes begins with a visible character. */
  lemma PartsSolid(p: PromptState)
    ensures AllSolid(Parts(p))
  {
    SceneCoreSolid(p);
    SettingSolid(p);
    VisualSolid(p);
    var music := When(p.suaraMusik, "Diiringi oleh " + Trim(p.suaraMusik) + ".");
    var dialogue := When(p.kalimatYangDiucapkan, "Terdapat dialog: {{" + Trim(p.kalimatYangDiucapkan) + "}}.");
    var detail := When(p.detailTambahan, "Detail tambahan: " + Trim(p.detailTambahan) + ".");
    var negative := When(p.negativePrompt, "Hindari elemen seperti: " + Trim(p.negativePrompt) + ".");
    ClausesSolid(p);
    var s := [SceneCore(p)];
    AllSolidAppend(s, SettingParts(p));
    s := s + SettingParts(p);
    AllSolidAppend(s, VisualParts(p));
    s := s + VisualParts(p);
    AllSolidAppend(s, music);
    s := s + music;
    AllSolidAppend(s, dialogue);
    s := s + dialogue;
    AllSolidAppend(s, detail);
    s := s + detail;
    AllSolidAppend(s, [QualitySentence]);
    s := s + [QualitySentence];
    AllSolidAppend(s, negative);
    s := s + negative;
    assert s == Parts(p);
  }

  lemma SentenceSolid(lead: string, v: string, close: string)
    requires Solid(lead)
    ensures AllSolid(When(v, lead + Trim(v) + close))
  {
  }

  /** The blank filter removes nothing: every part the assembler pushes is
      non-blank, so the prompt is all the parts joined by one space. */
  lemma AssembleJoinsAllParts(p: PromptState)
    ensures forall x :: x in Parts(p) ==> !Blank(x)
    ensures Assemble(p) == Join(Parts(p), " ")
  {
    PartsSolid(p);
    forall x | x in Parts(p) ensures !Blank(x) {
      NotBlankByFirst(x);
    }
    DropBlankSpec(Parts(p));
  }

  /** `t` is a suffix of `s`. */
  predicate EndsWith(s: string, t: string) {
    |t| <= |s| && s[|s| - |t|..] == t
  }

  /** Every pushed part occurs in the prompt. */
  lemma AssembleContainsPart(p: PromptState, x: string)
    requires x in Parts(p)
    ensures Contains(Assemble(p), x)
  {
    AssembleJoinsAllParts(p);
    var k :| 0 <= k < |Parts(p)| && Parts(p)[k] == x;
    JoinContainsPart(Parts(p), " ", k);
  }

  /** Two neighbouring parts occur in the prompt separated by one space. */
  lemma AssembleContainsNeighbours(p: PromptState, k: nat)
    requires k + 1 < |Parts(p)|
    ensures Contains(Assemble(p), Parts(p)[k] + " " + Parts(p)[k + 1])
  {
    AssembleJoinsAllParts(p);
    JoinContainsNeighbours(Parts(p), " ", k);
  }

  /** The scene core opens with the fixed introduction and, when a subject is
      given, goes on to name it; a blank subject gives the generic scene. */
  lemma SceneCoreOpening(p: PromptState)
    ensures Intro <= SceneCore(p)
    ensures Blank(p.subjek) ==> SceneCore(p) == Intro + " yang menakjubkan dan penuh detail" + "."
    ensures !Blank(p.subjek) ==> Intro + " yang menampilkan " + Trim(p.subjek) <= SceneCore(p)
  {
  }

  /** The given subject's scene core: the subject, then the action if
      given, then the expression if given, closed by one period. */
  lemma SceneCoreClauses(p: PromptState)
    requires !Blank(p.subjek)
    ensures SceneCore(p) == Intro + " yang menampilkan " + Trim(p.subjek)
      + (if Blank(p.aksi) then "" else " sedang " + Trim(p.aksi))
      + (if Blank(p.ekspresi) then "" else " dengan ekspresi " + Trim(p.ekspresi))
      + "."
    ensures SceneCore(p)[|SceneCore(p)| - 1] == '.'
  {
  }

  /** The prompt opens with the scene core, and so is never blank. */
  lemma AssembleOpensWithScene(p: PromptState)
    ensures SceneCore(p) <= Assemble(p) && Intro <= Assemble(p)
    ensures !Blank(Assemble(p))
  {
    AssembleJoinsAllParts(p);
    JoinEnds(Parts(p), " ");
    assert Parts(p)[0] == SceneCore(p);
    SceneCoreOpening(p);
    var prompt := Assemble(p);
    assert prompt[0] == Intro[0];
    NotBlankByFirst(prompt);
  }

  /** With a blank subject the action and the expression are never read. */
  lemma SubjectBlankIgnoresActionAndExpression(p: PromptState, a: string, e: string)
    requires Blank(p.subjek)
    ensures Assemble(p.(aksi := a, ekspresi := e)) == Assemble(p)
  {
  }

  /** Two records whose fields agree after trimming. */
  predicate SameTrimmed(p: PromptState, q: PromptState) {
    forall f: Field :: Trim(p.Get(f)) == Trim(q.Get(f))
  }

  lemma SceneTrimmed(p: PromptState, q: PromptState)
    requires Trim(p.subjek) == Trim(q.subjek) && Trim(p.aksi) == Trim(q.aksi)
    requires Trim(p.ekspresi) == Trim(q.ekspresi)
    requires Trim(p.tempat) == Trim(q.tempat) && Trim(p.waktu) == Trim(q.waktu)
    ensures [SceneCore(p)] + SettingParts(p) == [SceneCore(q)] + SettingParts(q)
  {
  }

  lemma VisualTrimmed(p: PromptState, q: PromptState)
    requires Trim(p.gerakanKamera) == Trim(q.gerakanKamera)
    requires Trim(p.pencahayaan) == Trim(q.pencahayaan)
    requires Trim(p.gayaVideo) == Trim(q.gayaVideo) && Trim(p.suasanaVideo) == Trim(q.suasanaVideo)
    ensures VisualParts(p) == VisualParts(q)
  {
  }

  /** The prompt depends on each field only through its trimmed value. */
  lemma AssembleDependsOnTrimmedFields(p: PromptState, q: PromptState)
    requires SameTrimmed(p, q)
    ensures Assemble(p) == Assemble(q)
  {
    assert Trim(p.Get(Subjek)) == Trim(q.Get(Subjek)) && Trim(p.Get(Aksi)) == Trim(q.Get(Aksi));
    assert Trim(p.Get(Ekspresi)) == Trim(q.Get(Ekspresi)) && Trim(p.Get(Tempat)) == Trim(q.Get(Tempat));
    assert Trim(p.Get(Waktu)) == Trim(q.Get(Waktu));
    assert Trim(p.Get(GerakanKamera)) == Trim(q.Get(GerakanKamera));
    assert Trim(p.Get(Pencahayaan)) == Trim(q.Get(Pencahayaan));
    assert Trim(p.Get(GayaVideo)) == Trim(q.Get(GayaVideo));
    assert Trim(p.Get(SuasanaVideo)) == Trim(q.Get(SuasanaVideo));
    assert Trim(p.Get(SuaraMusik)) == Trim(q.Get(SuaraMusik));
    assert Trim(p.Get(KalimatYangDiucapkan)) == Trim(q.Get(KalimatYangDiucapkan));
    assert Trim(p.Get(DetailTambahan)) == Trim(q.Get(DetailTambahan));
    assert Trim(p.Get(NegativePrompt)) == Trim(q.Get(NegativePrompt));
    SceneTrimmed(p, q);
    VisualTrimmed(p, q);
  }

  /** Replacing one field by any value with the same trim leaves the prompt
      unchanged. */
  lemma SameTrimSamePrompt(p: PromptState, f: Field, v: string)
    requires Trim(v) == Trim(p.Get(f))
    ensures Assemble(p.With(f, v)) == Assemble(p)
  {
    var q := p.With(f, v);
    forall g: Field ensures Trim(q.Get(g)) == Trim(p.Get(g)) {
      if g != f {
        assert q.Get(g) == p.Get(g);
      }
    }
    AssembleDependsOnTrimmedFields(q, p);
  }

  /** A blank field reads as an empty one, and typing padding around a value
      changes nothing. */
  lemma BlankAndPaddingIgnored(p: PromptState, f: Field)
    ensures Blank(p.Get(f)) ==> Assemble(p.With(f, "")) == Assemble(p)
    ensures Assemble(p.With(f, Trim(p.Get(f)))) == Assemble(p)
  {
    TrimIdempotent(p.Get(f));
    SameTrimSamePrompt(p, f, Trim(p.Get(f)));
    if Blank(p.Get(f)) {
      assert Trim("") == "";
      SameTrimSamePrompt(p, f, "");
    }
  }


  /** The parts list begins with the scene core and the setting parts. */
  lemma PartsOpening(p: PromptState)
    ensures [SceneCore(p)] + SettingParts(p) <= Parts(p)
  {
  }

  /** Place without time: the place part is followed by a lone period part,
      so the prompt reads "Berlatar di <place> ." with a space before the period. */
  lemma PlaceWithoutTime(p: PromptState)
    requires !Blank(p.tempat) && Blank(p.waktu)
    ensures SettingParts(p) == ["Berlatar di " + Trim(p.tempat), "."]
    ensures Contains(Assemble(p), "Berlatar di " + Trim(p.tempat) + " " + ".")
  {
    PartsOpening(p);
    assert Parts(p)[1] == ([SceneCore(p)] + SettingParts(p))[1];
    assert Parts(p)[2] == ([SceneCore(p)] + SettingParts(p))[2];
    AssembleContainsNeighbours(p, 1);
  }

  /** Place and time: "Berlatar di <place> pada <time>." */
  lemma PlaceAndTime(p: PromptState)
    requires !Blank(p.tempat) && !Blank(p.waktu)
    ensures SettingParts(p) == ["Berlatar di " + Trim(p.tempat), "pada " + Trim(p.waktu) + "."]
    ensures Contains(Assemble(p), "Berlatar di " + Trim(p.tempat) + " " + ("pada " + Trim(p.waktu) + "."))
  {
    PartsOpening(p);
    assert Parts(p)[1] == ([SceneCore(p)] + SettingParts(p))[1];
    assert Parts(p)[2] == ([SceneCore(p)] + SettingParts(p))[2];
    AssembleContainsNeighbours(p, 1);
  }

  /** Time without place: the time clause is still rendered, as a part of its
      own that follows the scene core directly. */
  lemma TimeWithoutPlace(p: PromptState)
    requires Blank(p.tempat) && !Blank(p.waktu)
    ensures SettingParts(p) == ["pada " + Trim(p.waktu) + "."]
    ensures Contains(Assemble(p), SceneCore(p) + " " + ("pada " + Trim(p.waktu) + "."))
  {
    PartsOpening(p);
    assert Parts(p)[0] == ([SceneCore(p)] + SettingParts(p))[0];
    assert Parts(p)[1] == ([SceneCore(p)] + SettingParts(p))[1];
    AssembleContainsNeighbours(p, 0);
  }

  /** There is a visual-style sentence exactly when at least one of style,
      lighting, camera and mood is given. */
  lemma VisualSentencePresence(p: PromptState)
    ensures VisualParts(p) == [] <==>
      Blank(p.gayaVideo) && Blank(p.pencahayaan) && Blank(p.gerakanKamera) && Blank(p.suasanaVideo)
    ensures |VisualParts(p)| <= 1
  {
  }

  /** With all four given, the fragments are joined by ", " into one
      sentence in the order style, lighting, camera, mood. */
  lemma VisualSentenceAllFour(p: PromptState)
    requires !Blank(p.gayaVideo) && !Blank(p.pencahayaan) && !Blank(p.gerakanKamera) && !Blank(p.suasanaVideo)
    ensures VisualParts(p) == ["dalam gaya video " + Trim(p.gayaVideo) + ", "
      + ("dengan pencahayaan " + Trim(p.pencahayaan) + ", "
      + ("menggunakan gerakan kamera " + CameraValue(p.gerakanKamera) + ", "
      + ("menciptakan suasana " + Trim(p.suasanaVideo)))) + "."]
  {
    var a := "dalam gaya video " + Trim(p.gayaVideo);
    var b := "dengan pencahayaan " + Trim(p.pencahayaan);
    var c := "menggunakan gerakan kamera " + CameraValue(p.gerakanKamera);
    var d := "menciptakan suasana " + Trim(p.suasanaVideo);
    var fs := VisualFragments(p);
    assert fs == [a, b, c, d];
    assert fs[1..] == [b, c, d] && fs[1..][1..] == [c, d] && fs[1..][1..][1..] == [d];
    assert Join([c, d], ", ") == c + ", " + d;
    assert Join([b, c, d], ", ") == b + ", " + (c + ", " + d);
    assert Join(fs, ", ") == a + ", " + (b + ", " + (c + ", " + d));
  }

  /** Every visual fragment that is pushed occurs in the prompt. */
  lemma VisualFragmentRendered(p: PromptState, x: string)
    requires x in VisualFragments(p)
    ensures Contains(Assemble(p), x)
  {
    var fs := VisualFragments(p);
    var k :| 0 <= k < |fs| && fs[k] == x;
    JoinContainsPart(fs, ", ", k);
    var sentence := Join(fs, ", ") + ".";
    assert sentence == [] + Join(fs, ", ") + ".";
    ContainsInContext([], Join(fs, ", "), ".", x);
    assert sentence in Parts(p);
    AssembleContainsPart(p, sentence);
    ContainsTransitive(Assemble(p), sentence, x);
  }

  /** A given camera movement is rendered with its underscores turned into
      spaces, keeping its length. */
  lemma CameraMovementRendered(p: PromptState)
    requires !Blank(p.gerakanKamera)
    ensures Contains(Assemble(p), "menggunakan gerakan kamera " + CameraValue(p.gerakanKamera))
    ensures '_' !in CameraValue(p.gerakanKamera)
    ensures |CameraValue(p.gerakanKamera)| == |Trim(p.gerakanKamera)|
  {
    VisualFragmentRendered(p, "menggunakan gerakan kamera " + CameraValue(p.gerakanKamera));
    ReplaceUnderscoresRemovesAll(Trim(p.gerakanKamera));
  }

  /** Style, lighting and mood are rendered with their trimmed values. */
  lemma StyleLightingMoodRendered(p: PromptState)
    ensures !Blank(p.gayaVideo) ==> Contains(Assemble(p), "dalam gaya video " + Trim(p.gayaVideo))
    ensures !Blank(p.pencahayaan) ==> Contains(Assemble(p), "dengan pencahayaan " + Trim(p.pencahayaan))
    ensures !Blank(p.suasanaVideo) ==> Contains(Assemble(p), "menciptakan suasana " + Trim(p.suasanaVideo))
  {
    if !Blank(p.gayaVideo) { VisualFragmentRendered(p, "dalam gaya video " + Trim(p.gayaVideo)); }
    if !Blank(p.pencahayaan) { VisualFragmentRendered(p, "dengan pencahayaan " + Trim(p.pencahayaan)); }
    if !Blank(p.suasanaVideo) { VisualFragmentRendered(p, "menciptakan suasana " + Trim(p.suasanaVideo)); }
  }

  /** Music, dialogue and additional details each give a sentence of their
      own when given. */
  lemma ClauseSentencesRendered(p: PromptState)
    ensures !Blank(p.suaraMusik) ==>
      Contains(Assemble(p), "Diiringi oleh " + Trim(p.suaraMusik) + ".")
    ensures !Blank(p.kalimatYangDiucapkan) ==>
      Contains(Assemble(p), "Terdapat dialog: {{" + Trim(p.kalimatYangDiucapkan) + "}}.")
    ensures !Blank(p.detailTambahan) ==>
      Contains(Assemble(p), "Detail tambahan: " + Trim(p.detailTambahan) + ".")
  {
    if !Blank(p.suaraMusik) {
      AssembleContainsPart(p, "Diiringi oleh " + Trim(p.suaraMusik) + ".");
    }
    if !Blank(p.kalimatYangDiucapkan) {
      AssembleContainsPart(p, "Terdapat dialog: {{" + Trim(p.kalimatYangDiucapkan) + "}}.");
    }
    if !Blank(p.detailTambahan) {
      AssembleContainsPart(p, "Detail tambahan: " + Trim(p.detailTambahan) + ".");
    }
  }

  /** The trimmed dialogue reaches the prompt inside double curly braces,
      the marker the translation request tells the model to keep verbatim. */
  lemma DialogueKeptInBraces(p: PromptState)
    requires !Blank(p.kalimatYangDiucapkan)
    ensures Contains(Assemble(p), "{{" + Trim(p.kalimatYangDiucapkan) + "}}")
  {
    var k := Trim(p.kalimatYangDiucapkan);
    ClauseSentencesRendered(p);
    BracesInDialogueSentence(k);
    ContainsTransitive(Assemble(p), "Terdapat dialog: {{" + k + "}}.", "{{" + k + "}}");
  }

  lemma BracesInDialogueSentence(k: string)
    ensures Contains("Terdapat dialog: {{" + k + "}}.", "{{" + k + "}}")
  {
    var s := "Terdapat dialog: {{" + k + "}}.";
    assert "Terdapat dialog: {{" == "Terdapat dialog: " + "{{";
    assert s == "Terdapat dialog: " + ("{{" + k + "}}") + ".";
    ContainsMiddle("Terdapat dialog: ", "{{" + k + "}}", ".");
  }

  /** The parts list ends with the quality sentence, followed by the
      avoid-list when a negative prompt is given. */
  lemma PartsClosing(p: PromptState)
    ensures QualitySentence in Parts(p)
    ensures Blank(p.negativePrompt) ==> Parts(p)[|Parts(p)| - 1] == QualitySentence
    ensures !Blank(p.negativePrompt) ==>
      |Parts(p)| >= 2
      && Parts(p)[|Parts(p)| - 2] == QualitySentence
      && Parts(p)[|Parts(p)| - 1] == "Hindari elemen seperti: " + Trim(p.negativePrompt) + "."
  {
  }

  /** The quality sentence is always pushed, after every other clause and
      before the negative prompt: the prompt ends with it when no negative
      prompt is given, and otherwise ends with the avoid-list right after it. */
  lemma AssembleClosing(p: PromptState)
    ensures Contains(Assemble(p), QualitySentence)
    ensures Blank(p.negativePrompt) ==> EndsWith(Assemble(p), QualitySentence)
    ensures !Blank(p.negativePrompt) ==>
      EndsWith(Assemble(p), "Hindari elemen seperti: " + Trim(p.negativePrompt) + ".")
      && Contains(Assemble(p), QualitySentence + " " + ("Hindari elemen seperti: " + Trim(p.negativePrompt) + "."))
  {
    var parts := Parts(p);
    PartsClosing(p);
    AssembleJoinsAllParts(p);
    JoinEnds(parts, " ");
    if !Blank(p.negativePrompt) {
      AssembleContainsNeighbours(p, |parts| - 2);
    }
    AssembleContainsPart(p, QualitySentence);
  }

  /** With every field blank the prompt is the generic scene followed by the
      quality sentence. */
  lemma AssembleAllBlank(p: PromptState)
    requires forall f: Field :: Blank(p.Get(f))
    ensures Assemble(p) == Intro + " yang menakjubkan dan penuh detail" + "." + " " + QualitySentence
  {
    assert Blank(p.Get(Subjek)) && Blank(p.Get(Tempat)) && Blank(p.Get(Waktu));
    assert Blank(p.Get(GayaVideo)) && Blank(p.Get(Pencahayaan));
    assert Blank(p.Get(GerakanKamera)) && Blank(p.Get(SuasanaVideo));
    assert Blank(p.Get(SuaraMusik)) && Blank(p.Get(KalimatYangDiucapkan));
    assert Blank(p.Get(DetailTambahan)) && Blank(p.Get(NegativePrompt));
    assert VisualFragments(p) == [];
    assert Parts(p) == [SceneCore(p), QualitySentence];
    AssembleJoinsAllParts(p);
    assert [SceneCore(p), QualitySentence][1..] == [QualitySentence];
  }
}
