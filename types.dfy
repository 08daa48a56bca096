/**
 * The form's field record (`PromptState` in types.ts): thirteen strings,
 * every one always present, an unset field being the empty string.
 */
module Types {

  datatype PromptState = PromptState(
    subjek: string,
    aksi: string,
    ekspresi: string,
    tempat: string,
    waktu: string,
    gerakanKamera: string,
    pencahayaan: string,
    gayaVideo: string,
    suasanaVideo: string,
    suaraMusik: string,
    kalimatYangDiucapkan: string,
    detailTambahan: string,
    negativePrompt: string)
  {
    /** Reads one field by its key (`promptInputs[field]`). */
    function Get(f: Field): string {
      match f
      case Subjek => subjek
      case Aksi => aksi
      case Ekspresi => ekspresi
      case Tempat => tempat
      case Waktu => waktu
      case GerakanKamera => gerakanKamera
      case Pencahayaan => pencahayaan
      case GayaVideo => gayaVideo
      case SuasanaVideo => suasanaVideo
      case SuaraMusik => suaraMusik
      case KalimatYangDiucapkan => kalimatYangDiucapkan
      case DetailTambahan => detailTambahan
      case NegativePrompt => negativePrompt
    }

    /** `{ ...prev, [field]: value }`: the named field holds `v`, every other
        field keeps its value. */
    function With(f: Field, v: string): (q: PromptState)
      ensures q.Get(f) == v
      ensures forall g :: g != f ==> q.Get(g) == Get(g)
    {
      match f
      case Subjek => this.(subjek := v)
      case Aksi => this.(aksi := v)
      case Ekspresi => this.(ekspresi := v)
      case Tempat => this.(tempat := v)
      case Waktu => this.(waktu := v)
      case GerakanKamera => this.(gerakanKamera := v)
      case Pencahayaan => this.(pencahayaan := v)
      case GayaVideo => this.(gayaVideo := v)
      case SuasanaVideo => this.(suasanaVideo := v)
      case SuaraMusik => this.(suaraMusik := v)
      case KalimatYangDiucapkan => this.(kalimatYangDiucapkan := v)
      case DetailTambahan => this.(detailTambahan := v)
      case NegativePrompt => this.(negativePrompt := v)
    }
  }

  /** The keys of `PromptState` (`keyof PromptState`). */
  datatype Field =
    | Subjek | Aksi | Ekspresi | Tempat | Waktu | GerakanKamera | Pencahayaan
    | GayaVideo | SuasanaVideo | SuaraMusik | KalimatYangDiucapkan | DetailTambahan
    | NegativePrompt

  /** A record is determined by its fields. */
  lemma FieldsDetermineState(p: PromptState, q: PromptState)
    requires forall f: Field :: p.Get(f) == q.Get(f)
    ensures p == q
  {
    assert p.Get(Subjek) == q.Get(Subjek) && p.Get(Aksi) == q.Get(Aksi);
    assert p.Get(Ekspresi) == q.Get(Ekspresi) && p.Get(Tempat) == q.Get(Tempat);
    assert p.Get(Waktu) == q.Get(Waktu) && p.Get(GerakanKamera) == q.Get(GerakanKamera);
    assert p.Get(Pencahayaan) == q.Get(Pencahayaan) && p.Get(GayaVideo) == q.Get(GayaVideo);
    assert p.Get(SuasanaVideo) == q.Get(SuasanaVideo) && p.Get(SuaraMusik) == q.Get(SuaraMusik);
    assert p.Get(KalimatYangDiucapkan) == q.Get(KalimatYangDiucapkan);
    assert p.Get(DetailTambahan) == q.Get(DetailTambahan);
    assert p.Get(NegativePrompt) == q.Get(NegativePrompt);
  }

  /** Writing a field twice keeps only the second value; writing back the
      value a field already has changes nothing. */
  lemma WithOverwrites(p: PromptState, f: Field, v: string, w: string)
    ensures p.With(f, v).With(f, w) == p.With(f, w)
    ensures p.With(f, p.Get(f)) == p
  {
    FieldsDetermineState(p.With(f, v).With(f, w), p.With(f, w));
    FieldsDetermineState(p.With(f, p.Get(f)), p);
  }
}
