/** core/formats/formats.go: what the user's output policy lets happen to a received file. */
module OutputPolicy {
  import Naming

  datatype Kind = Photo | Video | File | UnknownKind(text: string)

  datatype Class = Heic | Raw | VideoClass | Other | UnknownClass(text: string)

  datatype Action = Keep | Sidecar | Replace | UnknownAction(text: string)

  /** The stored preset, trimmed. `Unset` is the empty string. */
  datatype Preset = Unset | Original | Compatible | SpaceSaving | Custom | UnknownPreset(text: string)

  /** The stored matrix as the JSON reader sees it. */
  datatype MatrixText = Blank | Malformed | Encoded(matrix: map<Class, Action>)

  datatype Policy = Policy(preset: Preset, matrix: map<Class, Action>)

  const DEFAULT := Policy(Original, map[])

  predicate Valid(p: Policy) {
    match p.preset
    case Unset | Original | Compatible | SpaceSaving => true
    case UnknownPreset(_) => false
    case Custom =>
      forall c | c in p.matrix ::
        !p.matrix[c].UnknownAction? && !(c == Raw && p.matrix[c] != Keep) && !c.UnknownClass?
  }

  /** `Action`. */
  function ActionFor(p: Policy, c: Class): Action {
    if c == Raw then Keep
    else
      match p.preset
      case Custom => if c in p.matrix then p.matrix[c] else Keep
      case Unset | UnknownPreset(_) | Original => Keep
      case Compatible => if c == Heic || c == VideoClass then Sidecar else Keep
      case SpaceSaving => if c == Heic || c == VideoClass then Replace else Keep
  }

  /** The extension a path carries, without its dot. */
  function ExtOf(path: string): string {
    var i := Naming.ExtAt(path);
    if i == |path| then "" else path[i + 1..]
  }

  /** Lower case: ASCII letters, and whatever the Unicode tables say beyond them. */
  function Lower(lower: char -> char, s: string): string {
    seq(|s|, i requires 0 <= i < |s| =>
      if s[i] as int >= 0x80 then lower(s[i]) else if 'A' <= s[i] <= 'Z' then (s[i] as int + 32) as char else s[i])
  }

  predicate HeicExt(e: string) { e == "heic" || e == "heif" || e == "hif" || e == "avci" }

  predicate RawExt(e: string) {
    e == "dng" || e == "arw" || e == "srf" || e == "sr2" || e == "cr2" || e == "cr3" || e == "crw" ||
    e == "nef" || e == "nrw" || e == "orf" || e == "raf" || e == "rw2" || e == "pef" || e == "srw" ||
    e == "3fr" || e == "iiq" || e == "erf" || e == "mef" || e == "mos" || e == "x3f" || e == "raw"
  }

  predicate VideoExt(e: string) {
    e == "mov" || e == "mp4" || e == "m4v" || e == "hevc" || e == "avi" || e == "mkv" || e == "mpg" ||
    e == "mpeg" || e == "3gp" || e == "webm"
  }

  function Classify(lower: char -> char, kind: Kind, name: string): Class {
    if kind == File then Other
    else
      var e := Lower(lower, ExtOf(name));
      if HeicExt(e) then Heic
      else if RawExt(e) then Raw
      else if VideoExt(e) then VideoClass
      else if kind == Video then VideoClass
      else Other
  }

  datatype Decision = Decision(family: Class, action: Action, downgraded: bool)

  function Decide(lower: char -> char, p: Policy, kind: Kind, name: string, paired: bool): Decision {
    var c := Classify(lower, kind, name);
    var a := ActionFor(p, c);
    if a == Replace && paired then Decision(c, Sidecar, true) else Decision(c, a, false)
  }

  function Marshal(p: Policy): (Preset, MatrixText) {
    var preset := if p.preset == Unset then Original else p.preset;
    if p.preset != Custom || |p.matrix| == 0 then (preset, Blank) else (preset, Encoded(p.matrix))
  }

  function Unmarshal(preset: Preset, matrix: MatrixText): Policy {
    var p := Policy(if preset == Unset then Original else preset, map[]);
    if p.preset != Custom || matrix == Blank then p
    else if matrix == Malformed then DEFAULT
    else
      var q := p.(matrix := matrix.matrix);
      if Valid(q) then q else DEFAULT
  }

  /** What is read back from the settings does to every class what the saved policy did. */
  lemma SavedPolicyActsTheSame(p: Policy, c: Class)
    requires Valid(p)
    ensures ActionFor(Unmarshal(Marshal(p).0, Marshal(p).1), c) == ActionFor(p, c)
  {
    if p.preset == Custom && |p.matrix| == 0 {
      assert p.matrix.Keys == {};
    }
  }

  /** Whatever the settings hold, the policy read from them is one the user could have saved, or keeps everything. */
  lemma StoredPolicyIsSane(preset: Preset, matrix: MatrixText, c: Class)
    ensures var p := Unmarshal(preset, matrix);
      (Valid(p) || ActionFor(p, c) == Keep) && !ActionFor(p, c).UnknownAction?
  {
  }

  /**
    A stored matrix is acted on entry by entry, but for raw negatives, if it has no class and no action
    unknown to the program and nothing but keeping for raw; one with any of these changes nothing at all.
  */
  lemma StoredMatrixExactly(m: map<Class, Action>, c: Class)
    ensures var odd := exists k | k in m :: k.UnknownClass? || m[k].UnknownAction? || (k == Raw && m[k] != Keep);
      ActionFor(Unmarshal(Custom, Encoded(m)), c) == if odd || c == Raw || c !in m then Keep else m[c]
    ensures Unmarshal(Compatible, Encoded(m)) == Policy(Compatible, map[])
    ensures Unmarshal(SpaceSaving, Encoded(m)) == Policy(SpaceSaving, map[])
    ensures ActionFor(Unmarshal(Original, Encoded(m)), c) == ActionFor(Unmarshal(Unset, Encoded(m)), c) == Keep
  {
    assert Valid(Policy(Custom, m)) <==>
      forall k | k in m :: !m[k].UnknownAction? && !(k == Raw && m[k] != Keep) && !k.UnknownClass?;
  }

  /** No policy at all, stored or not, replaces a pair member, a raw negative or an arbitrary file's class. */
  lemma NeverReplaced(lower: char -> char, p: Policy, kind: Kind, name: string, paired: bool)
    requires Decide(lower, p, kind, name, paired).action == Replace
    ensures !paired && Classify(lower, kind, name) != Raw
    ensures kind == File ==> Decide(lower, p, kind, name, paired).family == Other
  {
  }

  /** What the user chose to give up: this class, by this preset or in this matrix, and never a raw negative. */
  predicate Chose(p: Policy, c: Class, a: Action) {
    c != Raw &&
    ((a == Replace && p.preset == SpaceSaving && (c == Heic || c == VideoClass)) ||
     (a == Sidecar && p.preset == Compatible && (c == Heic || c == VideoClass)) ||
     (p.preset == Custom && c in p.matrix && p.matrix[c] == a))
  }

  /**
    An original is given up exactly when the user chose that for its class and it is nobody's pair
    member; a pair member's replacement becomes a copy beside it, and says so.
  */
  lemma GivenUpExactly(lower: char -> char, p: Policy, kind: Kind, name: string, paired: bool)
    ensures var d := Decide(lower, p, kind, name, paired);
      && (d.action == Replace <==> Chose(p, d.family, Replace) && !paired)
      && (d.downgraded <==> Chose(p, d.family, Replace) && paired)
      && (d.action == Sidecar <==> Chose(p, d.family, Sidecar) || d.downgraded)
  {
    hide Classify;
  }
}
