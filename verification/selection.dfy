/**
  mobile/src/core/selection.ts: which of an asset's resources leave the phone, and which were left
  behind. Resources are told apart by their position in the list the library gave.
*/
module Selection {
  import opened Wrappers

  datatype ResourceType =
    | PhotoType | FullSizePhoto | AlternatePhoto | VideoType | FullSizeVideo | PairedVideo | FullSizePairedVideo
    | Audio | PhotoProxy | AdjustmentData | AdjustmentBasePhoto | AdjustmentBaseVideo | AdjustmentBasePairedVideo
    | UnknownType

  datatype Resource = Resource(rtype: ResourceType, filename: string, uti: string, size: nat)

  datatype Edits = Edited | OriginalOnly | BothVersions

  datatype RawChoice = RawAndJpeg | RawOnly | JpegOnly

  /** The options and the flag that decide about resources; the others decide about whole assets. */
  datatype SendOptions = SendOptions(livePhotoVideo: bool, edits: Edits, raw: RawChoice)

  datatype AssetKind = PhotoAsset | VideoAsset

  datatype Role = Primary | Secondary

  datatype Chosen = Chosen(rtype: ResourceType, filename: string, size: nat, role: Role, video: bool)

  predicate RawUti(uti: string) {
    uti == "com.adobe.raw-image" || uti == "public.camera-raw-image" || uti == "com.adobe.dng"
  }

  predicate RawEnding(e: string) {
    e == ".dng" || e == ".arw" || e == ".cr2" || e == ".cr3" || e == ".nef" || e == ".orf" || e == ".raf" ||
    e == ".rw2" || e == ".pef" || e == ".srw"
  }

  function LowerAscii(s: string): string {
    seq(|s|, i requires 0 <= i < |s| => if 'A' <= s[i] <= 'Z' then (s[i] as int + 32) as char else s[i])
  }

  predicate IsRaw(r: Resource) {
    RawUti(r.uti) || (|r.filename| >= 4 && RawEnding(LowerAscii(r.filename[|r.filename| - 4..])))
  }

  predicate IsVideo(t: ResourceType) {
    t.VideoType? || t.FullSizeVideo? || t.PairedVideo? || t.FullSizePairedVideo? || t.AdjustmentBaseVideo? ||
        t.AdjustmentBasePairedVideo?
  }

  /** The edit recipe and the placeholder: not a copy of the photograph. */
  predicate IsSidecar(t: ResourceType) { t.AdjustmentData? || t.PhotoProxy? }

  // ---- choosing ----

  function FirstOf(resources: seq<Resource>, t: ResourceType): (r: Option<nat>)
    ensures r.Some? ==> r.value < |resources| && resources[r.value].rtype == t
    ensures r.Some? ==> forall i | 0 <= i < r.value :: resources[i].rtype != t
    ensures r.None? ==> forall i | 0 <= i < |resources| :: resources[i].rtype != t
  {
    if resources == [] then None
    else
      match FirstOf(resources[..|resources| - 1], t)
      case Some(i) => Some(i)
      case None => if resources[|resources| - 1].rtype == t then Some(|resources| - 1) else None
  }

  function Or<T>(a: Option<T>, b: Option<T>): Option<T> {
    if a.Some? then a else b
  }

  /** `addVersions`: what it adds, in order. */
  function Versions(original: Option<nat>, rendered: Option<nat>, adjusted: bool, edits: Edits): seq<Option<nat>> {
    if !adjusted || rendered.None? then [Or(original, rendered)]
    else
      match edits
      case OriginalOnly => [Or(original, rendered)]
      case BothVersions => [rendered, original]
      case Edited => [Or(rendered, original)]
  }

  function StillWanted(resources: seq<Resource>, adjusted: bool, options: SendOptions): seq<Option<nat>> {
    var original := FirstOf(resources, PhotoType);
    var rendered := FirstOf(resources, FullSizePhoto);
    var alternate := FirstOf(resources, AlternatePhoto);
    if original.Some? && IsRaw(resources[original.value]) then
      match options.raw
      case RawOnly => [original]
      case JpegOnly => [Or(Or(alternate, rendered), original)]
      case RawAndJpeg => [original, Or(alternate, rendered)]
    else
      Versions(original, rendered, adjusted, options.edits) + if options.raw == RawAndJpeg then [alternate] else []
  }

  function MotionWanted(resources: seq<Resource>, options: SendOptions): seq<Option<nat>> {
    var paired := FirstOf(resources, PairedVideo);
    var pairedRendered := FirstOf(resources, FullSizePairedVideo);
    if !options.livePhotoVideo then []
    else
      [if options.edits == OriginalOnly then Or(paired, pairedRendered) else Or(pairedRendered, paired)] +
      if options.edits == BothVersions then [Or(paired, pairedRendered)] else []
  }

  function Wanted(resources: seq<Resource>, adjusted: bool, options: SendOptions, kind: AssetKind): seq<Option<nat>> {
    var main := if kind == VideoAsset
      then Versions(FirstOf(resources, VideoType), FirstOf(resources, FullSizeVideo), adjusted, options.edits)
      else StillWanted(resources, adjusted, options);
    main + MotionWanted(resources, options)
  }

  /** `add`: nothing twice, and nothing that is not there. */
  function Add(chosen: seq<nat>, r: Option<nat>): seq<nat> {
    if r.Some? && r.value !in chosen then chosen + [r.value] else chosen
  }

  function AddAll(chosen: seq<nat>, wanted: seq<Option<nat>>): seq<nat> {
    if wanted == [] then chosen else Add(AddAll(chosen, wanted[..|wanted| - 1]), wanted[|wanted| - 1])
  }

  function Fallback(resources: seq<Resource>): (r: Option<nat>)
    ensures r.Some? ==> r.value < |resources| && !IsSidecar(resources[r.value].rtype)
    ensures r.Some? ==> forall i | 0 <= i < r.value :: IsSidecar(resources[i].rtype)
    ensures r.None? ==> forall i | 0 <= i < |resources| :: IsSidecar(resources[i].rtype)
  {
    if resources == [] then None
    else
      match Fallback(resources[..|resources| - 1])
      case Some(i) => Some(i)
      case None => if IsSidecar(resources[|resources| - 1].rtype) then None else Some(|resources| - 1)
  }

  /** `chooseResources`, as positions. */
  function Picked(resources: seq<Resource>, adjusted: bool, options: SendOptions, kind: AssetKind): seq<nat> {
    var chosen := AddAll([], Wanted(resources, adjusted, options, kind));
    if chosen == [] then Add([], Fallback(resources)) else chosen
  }

  /** A position that is the first of its type, and a photograph. */
  predicate First(resources: seq<Resource>, k: nat) {
    k < |resources| && !IsSidecar(resources[k].rtype) && FirstOf(resources, resources[k].rtype) == Some(k)
  }

  predicate Firsts(resources: seq<Resource>, chosen: seq<nat>) {
    && (forall k | k in chosen :: First(resources, k))
    && (forall i, j | 0 <= i < j < |chosen| :: chosen[i] != chosen[j])
  }

  predicate OnlyFirsts(resources: seq<Resource>, wanted: seq<Option<nat>>) {
    forall r | r in wanted && r.Some? :: First(resources, r.value)
  }

  lemma {:induction false} AddAllFirsts(resources: seq<Resource>, chosen: seq<nat>, wanted: seq<Option<nat>>)
    requires Firsts(resources, chosen) && OnlyFirsts(resources, wanted)
    ensures Firsts(resources, AddAll(chosen, wanted))
  {
    if wanted != [] {
      AddAllFirsts(resources, chosen, wanted[..|wanted| - 1]);
      assert wanted[|wanted| - 1] in wanted;
    }
  }

  lemma StillFirsts(resources: seq<Resource>, adjusted: bool, options: SendOptions)
    ensures OnlyFirsts(resources, StillWanted(resources, adjusted, options))
  {
    hide IsRaw, FirstOf;
  }

  lemma WantedFirsts(resources: seq<Resource>, adjusted: bool, options: SendOptions, kind: AssetKind)
    ensures OnlyFirsts(resources, Wanted(resources, adjusted, options, kind))
  {
    hide StillWanted, FirstOf;
    StillFirsts(resources, adjusted, options);
  }

  lemma PickedFirsts(resources: seq<Resource>, adjusted: bool, options: SendOptions, kind: AssetKind)
    ensures Firsts(resources, Picked(resources, adjusted, options, kind))
  {
    hide Wanted, FirstOf, Fallback;
    WantedFirsts(resources, adjusted, options, kind);
    AddAllFirsts(resources, [], Wanted(resources, adjusted, options, kind));
    var f := Fallback(resources);
    if f.Some? {
      FirstPhotograph(resources, f.value);
    }
  }

  /** The first photograph of all is the first of its type. */
  lemma FirstPhotograph(resources: seq<Resource>, k: nat)
    requires k < |resources| && !IsSidecar(resources[k].rtype) && forall i | 0 <= i < k :: IsSidecar(resources[i].rtype)
    ensures First(resources, k)
  {
    hide FirstOf;
    assert FirstOf(resources, resources[k].rtype).Some?;
  }

  /** Never nothing: as long as there is a photograph in the asset, something of it is sent. */
  lemma NeverNothing(resources: seq<Resource>, adjusted: bool, options: SendOptions, kind: AssetKind, i: nat)
    requires i < |resources| && resources[i].rtype !in {AdjustmentData, PhotoProxy}
    ensures Picked(resources, adjusted, options, kind) != []
  {
    hide Wanted, Fallback;
  }

  // ---- what the options mean ----

  lemma {:induction false} AddedMembers(chosen: seq<nat>, wanted: seq<Option<nat>>, k: nat)
    ensures k in AddAll(chosen, wanted) <==> k in chosen || Some(k) in wanted
  {
    if wanted != [] {
      AddedMembers(chosen, wanted[..|wanted| - 1], k);
      assert wanted == wanted[..|wanted| - 1] + [wanted[|wanted| - 1]];
    }
  }

  predicate Has(resources: seq<Resource>, t: ResourceType) { FirstOf(resources, t).Some? }

  /** The first resource of this type is sent. */
  predicate Sends(resources: seq<Resource>, adjusted: bool, options: SendOptions, kind: AssetKind, t: ResourceType) {
    Has(resources, t) && FirstOf(resources, t).value in Picked(resources, adjusted, options, kind)
  }

  lemma SentIsWanted(resources: seq<Resource>, adjusted: bool, options: SendOptions, kind: AssetKind, t: ResourceType)
    requires Has(resources, t) && exists k: nat :: Some(k) in Wanted(resources, adjusted, options, kind)
    ensures Sends(resources, adjusted, options, kind, t) <==>
      FirstOf(resources, t) in Wanted(resources, adjusted, options, kind)
  {
    hide Wanted, FirstOf;
    var wanted := Wanted(resources, adjusted, options, kind);
    AddedMembers([], wanted, FirstOf(resources, t).value);
    var k: nat :| Some(k) in wanted;
    AddedMembers([], wanted, k);
  }

  lemma TypesApart(resources: seq<Resource>)
    ensures forall t, v | t != v && Has(resources, t) :: FirstOf(resources, t) != FirstOf(resources, v)
  {
    hide FirstOf;
  }

  lemma {:induction false} FirstWantedLeads(wanted: seq<Option<nat>>)
    requires wanted != [] && wanted[0].Some?
    ensures AddAll([], wanted) != [] && AddAll([], wanted)[0] == wanted[0].value
  {
    if |wanted| == 1 {
      assert wanted[..0] == [];
    } else {
      FirstWantedLeads(wanted[..|wanted| - 1]);
    }
  }

  /** The first of what is wanted is there, so nothing is made up and it leads. */
  lemma Led(resources: seq<Resource>, adjusted: bool, options: SendOptions, kind: AssetKind)
    requires var wanted := Wanted(resources, adjusted, options, kind); wanted != [] && wanted[0].Some?
    ensures var wanted := Wanted(resources, adjusted, options, kind);
      var chosen := Picked(resources, adjusted, options, kind);
      && (forall t | Has(resources, t) ::
           Sends(resources, adjusted, options, kind, t) <==> FirstOf(resources, t) in wanted)
      && chosen != [] && Some(chosen[0]) == wanted[0]
  {
    hide Wanted, FirstOf, Has, Sends;
    var wanted := Wanted(resources, adjusted, options, kind);
    assert Some(wanted[0].value) in wanted;
    forall t | Has(resources, t) {
      SentIsWanted(resources, adjusted, options, kind, t);
    }
    FirstWantedLeads(wanted);
    AddedMembers([], wanted, wanted[0].value);
  }

  /** Two versions of one thing, of which at least one is there: the capture and its render. */
  predicate Versioned(resources: seq<Resource>, adjusted: bool, options: SendOptions, kind: AssetKind,
      capture: ResourceType, render: ResourceType)
  {
    && (Sends(resources, adjusted, options, kind, capture) <==>
         Has(resources, capture) && !(adjusted && Has(resources, render) && options.edits == Edited))
    && (Sends(resources, adjusted, options, kind, render) <==>
         Has(resources, render) && (!Has(resources, capture) || (adjusted && options.edits != OriginalOnly)))
    && var chosen := Picked(resources, adjusted, options, kind);
       var renders := !Has(resources, capture) || (adjusted && options.edits != OriginalOnly);
       var leads := if Has(resources, render) && renders then render else capture;
       chosen != [] && Some(chosen[0]) == FirstOf(resources, leads)
  }

  /** The motion wanted is nobody else's. */
  lemma MotionIsItsOwn(resources: seq<Resource>, options: SendOptions)
    ensures forall t | t !in {PairedVideo, FullSizePairedVideo} && Has(resources, t) ::
      FirstOf(resources, t) !in MotionWanted(resources, options)
  {
    hide FirstOf;
    TypesApart(resources);
  }

  /**
    A video: the render of an edited one unless only the capture is asked for, the capture unless only
    the render is, both if both are; the only version there is, if there is only one; and the render leads.
  */
  lemma VideosSent(resources: seq<Resource>, adjusted: bool, options: SendOptions)
    requires Has(resources, VideoType) || Has(resources, FullSizeVideo)
    ensures Versioned(resources, adjusted, options, VideoAsset, VideoType, FullSizeVideo)
  {
    hide FirstOf, MotionWanted, Picked, Sends;
    TypesApart(resources);
    MotionIsItsOwn(resources, options);
    Led(resources, adjusted, options, VideoAsset);
    AbsentIsNotSent(resources, adjusted, options, VideoAsset);
  }

  lemma AbsentIsNotSent(resources: seq<Resource>, adjusted: bool, options: SendOptions, kind: AssetKind)
    ensures forall t | !Has(resources, t) :: !Sends(resources, adjusted, options, kind, t)
  {
    hide Picked, FirstOf;
  }

  predicate RawPhoto(resources: seq<Resource>) {
    Has(resources, PhotoType) && IsRaw(resources[FirstOf(resources, PhotoType).value])
  }

  /** A still that is no raw negative: as with videos, and a picture beside it when both formats are asked for. */
  lemma StillsSent(resources: seq<Resource>, adjusted: bool, options: SendOptions)
    requires (Has(resources, PhotoType) || Has(resources, FullSizePhoto)) && !RawPhoto(resources)
    ensures Versioned(resources, adjusted, options, PhotoAsset, PhotoType, FullSizePhoto)
    ensures Sends(resources, adjusted, options, PhotoAsset, AlternatePhoto) <==>
      Has(resources, AlternatePhoto) && options.raw == RawAndJpeg
  {
    hide FirstOf, MotionWanted, Picked, Sends, IsRaw;
    TypesApart(resources);
    MotionIsItsOwn(resources, options);
    Led(resources, adjusted, options, PhotoAsset);
    AbsentIsNotSent(resources, adjusted, options, PhotoAsset);
  }

  /**
    A raw negative: itself unless only a picture is asked for and there is one, and the picture beside
    it unless only the negative is asked for. The render of an edit stands in for a missing picture.
  */
  lemma RawSent(resources: seq<Resource>, adjusted: bool, options: SendOptions)
    requires RawPhoto(resources)
    ensures Sends(resources, adjusted, options, PhotoAsset, PhotoType) <==>
      options.raw != JpegOnly || (!Has(resources, AlternatePhoto) && !Has(resources, FullSizePhoto))
    ensures Sends(resources, adjusted, options, PhotoAsset, AlternatePhoto) <==>
      Has(resources, AlternatePhoto) && options.raw != RawOnly
    ensures Sends(resources, adjusted, options, PhotoAsset, FullSizePhoto) <==>
      Has(resources, FullSizePhoto) && !Has(resources, AlternatePhoto) && options.raw != RawOnly
    ensures var chosen := Picked(resources, adjusted, options, PhotoAsset);
      var leads := if options.raw != JpegOnly then PhotoType
        else if Has(resources, AlternatePhoto) then AlternatePhoto
        else if Has(resources, FullSizePhoto) then FullSizePhoto else PhotoType;
      chosen != [] && Some(chosen[0]) == FirstOf(resources, leads)
  {
    hide FirstOf, MotionWanted, Picked, Sends, IsRaw;
    TypesApart(resources);
    MotionIsItsOwn(resources, options);
    Led(resources, adjusted, options, PhotoAsset);
    AbsentIsNotSent(resources, adjusted, options, PhotoAsset);
  }

  /**
    Live Photo video, whatever else the asset has: if it is asked for, the motion that fits the edits
    setting, the other one if that is missing, and both when both versions are asked for.
  */
  lemma MotionSent(resources: seq<Resource>, adjusted: bool, options: SendOptions, kind: AssetKind)
    requires options.livePhotoVideo && (Has(resources, PairedVideo) || Has(resources, FullSizePairedVideo))
    ensures Sends(resources, adjusted, options, kind, PairedVideo) <==>
      Has(resources, PairedVideo) && (options.edits != Edited || !Has(resources, FullSizePairedVideo))
    ensures Sends(resources, adjusted, options, kind, FullSizePairedVideo) <==>
      Has(resources, FullSizePairedVideo) && (options.edits != OriginalOnly || !Has(resources, PairedVideo))
  {
    hide FirstOf, Picked, Sends, StillWanted, Versions;
    TypesApart(resources);
    AbsentIsNotSent(resources, adjusted, options, kind);
    var motion := MotionWanted(resources, options);
    var wanted := Wanted(resources, adjusted, options, kind);
    assert motion[0].Some? && motion[0] in motion && Some(motion[0].value) in wanted;
    MainIsNoMotion(resources, adjusted, options, kind);
    if Has(resources, PairedVideo) {
      SentIsWanted(resources, adjusted, options, kind, PairedVideo);
    }
    if Has(resources, FullSizePairedVideo) {
      SentIsWanted(resources, adjusted, options, kind, FullSizePairedVideo);
    }
  }

  lemma MainIsNoMotion(resources: seq<Resource>, adjusted: bool, options: SendOptions, kind: AssetKind)
    ensures var wanted, motion := Wanted(resources, adjusted, options, kind), MotionWanted(resources, options);
      forall t | t in {PairedVideo, FullSizePairedVideo} && Has(resources, t) ::
        FirstOf(resources, t) in wanted <==> FirstOf(resources, t) in motion
  {
    hide FirstOf, IsRaw, MotionWanted;
    TypesApart(resources);
  }

  /** Not asked for, no motion goes with a still or a video. */
  lemma NoMotionSent(resources: seq<Resource>, adjusted: bool, options: SendOptions, kind: AssetKind)
    requires !options.livePhotoVideo
    requires if kind == VideoAsset then Has(resources, VideoType) || Has(resources, FullSizeVideo)
      else Has(resources, PhotoType) || Has(resources, FullSizePhoto)
    ensures !Sends(resources, adjusted, options, kind, PairedVideo)
    ensures !Sends(resources, adjusted, options, kind, FullSizePairedVideo)
  {
    hide FirstOf, Picked, Sends, IsRaw;
    TypesApart(resources);
    AbsentIsNotSent(resources, adjusted, options, kind);
    Led(resources, adjusted, options, kind);
    MainIsNoMotion(resources, adjusted, options, kind);
  }

  /** A Live Photo that has all four: the motion goes exactly with the still it belongs to, if it is asked for. */
  lemma MotionMatchesTheStill(resources: seq<Resource>, options: SendOptions)
    requires Has(resources, PhotoType) && Has(resources, FullSizePhoto) && Has(resources, PairedVideo)
    requires Has(resources, FullSizePairedVideo) && !RawPhoto(resources)
    ensures Sends(resources, true, options, PhotoAsset, PairedVideo) <==>
      options.livePhotoVideo && Sends(resources, true, options, PhotoAsset, PhotoType)
    ensures Sends(resources, true, options, PhotoAsset, FullSizePairedVideo) <==>
      options.livePhotoVideo && Sends(resources, true, options, PhotoAsset, FullSizePhoto)
  {
    hide FirstOf, Picked, Sends, IsRaw;
    StillsSent(resources, true, options);
    if options.livePhotoVideo {
      MotionSent(resources, true, options, PhotoAsset);
    } else {
      NoMotionSent(resources, true, options, PhotoAsset);
    }
  }

  /** A picture that has nothing to stand beside goes all the same when both formats are asked for. */
  lemma PictureAlone(resources: seq<Resource>, adjusted: bool, options: SendOptions)
    requires !Has(resources, PhotoType) && !Has(resources, FullSizePhoto) && Has(resources, AlternatePhoto)
    requires options.raw == RawAndJpeg
    ensures Sends(resources, adjusted, options, PhotoAsset, AlternatePhoto)
  {
    hide FirstOf, Picked, Sends, IsRaw, MotionWanted;
    var still := StillWanted(resources, adjusted, options);
    var alternate := FirstOf(resources, AlternatePhoto);
    assert still[|still| - 1] == alternate && alternate in still;
    assert Some(alternate.value) in Wanted(resources, adjusted, options, PhotoAsset);
    SentIsWanted(resources, adjusted, options, PhotoAsset, AlternatePhoto);
  }

  /** When nothing that was asked for is there, the first photograph of all goes, alone. */
  lemma TheFirstInstead(resources: seq<Resource>, adjusted: bool, options: SendOptions, kind: AssetKind, i: nat)
    requires forall r | r in Wanted(resources, adjusted, options, kind) :: r.None?
    requires i < |resources| && resources[i].rtype !in {AdjustmentData, PhotoProxy}
    requires forall j | 0 <= j < i :: resources[j].rtype in {AdjustmentData, PhotoProxy}
    ensures Picked(resources, adjusted, options, kind) == [i]
  {
    hide Wanted, Fallback;
    var wanted := Wanted(resources, adjusted, options, kind);
    var chosen := AddAll([], wanted);
    if chosen != [] {
      AddedMembers([], wanted, chosen[0]);
    }
  }

  // ---- what was left behind ----

  function CountType(types: seq<ResourceType>, t: ResourceType): nat {
    if types == [] then 0
    else CountType(types[..|types| - 1], t) + if types[|types| - 1] == t then 1 else 0
  }

  function TypesOf(resources: seq<Resource>): seq<ResourceType> {
    seq(|resources|, i requires 0 <= i < |resources| => resources[i].rtype)
  }

  /** The nth resource of a type counts as sent when at least n of that type were. */
  predicate Covered(resources: seq<Resource>, sent: seq<ResourceType>, i: nat)
    requires i < |resources|
  {
    CountType(TypesOf(resources)[..i], resources[i].rtype) < CountType(sent, resources[i].rtype)
  }

  function LeftBehind(resources: seq<Resource>, sent: seq<ResourceType>, n: nat): seq<ResourceType>
    requires n <= |resources|
  {
    if n == 0 then []
    else
      var before, t := LeftBehind(resources, sent, n - 1), resources[n - 1].rtype;
      if IsSidecar(t) || Covered(resources, sent, n - 1) || t in before then before else before + [t]
  }

  /** `withheldResources`: nothing at all is known of an asset that lists no resources. */
  function Withheld(resources: seq<Resource>, sent: seq<ResourceType>): Option<seq<ResourceType>> {
    if resources == [] then None else Some(LeftBehind(resources, sent, |resources|))
  }

  lemma {:induction false} LeftBehindMembers(resources: seq<Resource>, sent: seq<ResourceType>, n: nat, t: ResourceType)
    requires n <= |resources|
    ensures t in LeftBehind(resources, sent, n)
      <==> exists i: nat | i < n :: resources[i].rtype == t && !IsSidecar(t) && !Covered(resources, sent, i)
  {
    if n > 0 {
      LeftBehindMembers(resources, sent, n - 1, t);
    }
  }

  function SentTypes(resources: seq<Resource>, chosen: seq<nat>): seq<ResourceType>
    requires forall k | k in chosen :: k < |resources|
  {
    seq(|chosen|, i requires 0 <= i < |chosen| => assert chosen[i] in chosen; resources[chosen[i]].rtype)
  }

  lemma {:induction false} CountZero(types: seq<ResourceType>, t: ResourceType)
    ensures CountType(types, t) == 0 <==> t !in types
  {
    if types != [] {
      CountZero(types[..|types| - 1], t);
    }
  }

  lemma {:induction false} CountOnce(types: seq<ResourceType>, t: ResourceType)
    requires forall i, j | 0 <= i < j < |types| :: types[i] != types[j]
    ensures CountType(types, t) <= 1
  {
    if types != [] {
      CountOnce(types[..|types| - 1], t);
      CountZero(types[..|types| - 1], t);
    }
  }

  /** For a choice of firsts, covered by the counts means chosen by position. */
  lemma CoveredIsChosen(resources: seq<Resource>, chosen: seq<nat>, i: nat)
    requires Firsts(resources, chosen) && i < |resources| && !IsSidecar(resources[i].rtype)
    ensures Covered(resources, SentTypes(resources, chosen), i) <==> i in chosen
  {
    hide FirstOf;
    var t, sent := resources[i].rtype, SentTypes(resources, chosen);
    forall a, b | 0 <= a < b < |sent|
      ensures sent[a] != sent[b]
    {
      assert First(resources, chosen[a]) && First(resources, chosen[b]);
    }
    CountOnce(sent, t);
    CountZero(sent, t);
    CountZero(TypesOf(resources)[..i], t);
    if i in chosen {
      var a :| 0 <= a < |chosen| && chosen[a] == i;
      assert sent[a] == t && First(resources, i);
      assert t !in TypesOf(resources)[..i];
    } else if t in sent {
      var a :| 0 <= a < |sent| && sent[a] == t;
      var k := chosen[a];
      assert First(resources, k) && k < i;
      assert TypesOf(resources)[..i][k] == t;
    }
  }

  /** The list of what was left behind names exactly the types of the photographs not chosen. */
  lemma WithheldNamesTheUnchosen(
      resources: seq<Resource>, adjusted: bool, options: SendOptions, kind: AssetKind, t: ResourceType)
    requires resources != []
    ensures var chosen := Picked(resources, adjusted, options, kind);
      Firsts(resources, chosen) &&
      (t in Withheld(resources, SentTypes(resources, chosen)).value <==>
        exists i: nat | i < |resources| :: resources[i].rtype == t && !IsSidecar(t) && i !in chosen)
  {
    hide Picked, FirstOf, Covered;
    PickedFirsts(resources, adjusted, options, kind);
    var chosen := Picked(resources, adjusted, options, kind);
    LeftBehindMembers(resources, SentTypes(resources, chosen), |resources|, t);
    forall i: nat | i < |resources| && !IsSidecar(resources[i].rtype) {
      CoveredIsChosen(resources, chosen, i);
    }
  }

  /** "Nothing withheld" means a non-empty list of which every photograph was chosen, and only then. */
  lemma WithheldIsExact(resources: seq<Resource>, adjusted: bool, options: SendOptions, kind: AssetKind)
    ensures var chosen := Picked(resources, adjusted, options, kind);
      Firsts(resources, chosen) &&
      (Withheld(resources, SentTypes(resources, chosen)) == Some([]) <==>
        resources != [] && forall i: nat | i < |resources| && !IsSidecar(resources[i].rtype) :: i in chosen)
  {
    hide Picked, FirstOf, LeftBehind;
    PickedFirsts(resources, adjusted, options, kind);
    if resources != [] {
      var chosen := Picked(resources, adjusted, options, kind);
      var left := Withheld(resources, SentTypes(resources, chosen)).value;
      forall t {
        WithheldNamesTheUnchosen(resources, adjusted, options, kind, t);
      }
      if left != [] {
        assert left[0] in left;
      }
    }
  }

  // ---- the two loops ----

  function Get(byType: map<ResourceType, nat>, t: ResourceType): Option<nat> {
    if t in byType then Some(byType[t]) else None
  }

  /** The table of the first resource of each type. */
  method ByType(resources: seq<Resource>) returns (byType: map<ResourceType, nat>)
    ensures forall t :: Get(byType, t) == FirstOf(resources, t)
  {
    byType := map[];
    for i := 0 to |resources|
      invariant forall t :: Get(byType, t) == FirstOf(resources[..i], t)
    {
      assert resources[..i + 1][..i] == resources[..i];
      if resources[i].rtype !in byType {
        byType := byType[resources[i].rtype := i];
      }
    }
    assert resources[..|resources|] == resources;
  }

  function Described(resources: seq<Resource>, chosen: seq<nat>): seq<Chosen>
    requires forall k | k in chosen :: k < |resources|
  {
    seq(|chosen|, i requires 0 <= i < |chosen| =>
      assert chosen[i] in chosen;
      var r := resources[chosen[i]];
      Chosen(r.rtype, r.filename, r.size, if i == 0 then Primary else Secondary, IsVideo(r.rtype)))
  }

  /** The i-th file to send: the first is the primary, and of six types it is a video. */
  predicate DescribesAt(r: Resource, i: nat, c: Chosen) {
    && c.rtype == r.rtype && c.filename == r.filename && c.size == r.size && (c.role == Primary <==> i == 0)
    && (c.video <==> r.rtype in {VideoType, FullSizeVideo, PairedVideo, FullSizePairedVideo, AdjustmentBaseVideo,
         AdjustmentBasePairedVideo})
  }

  lemma {:induction false} AddAllConcat(chosen: seq<nat>, first: seq<Option<nat>>, more: seq<Option<nat>>)
    ensures AddAll(chosen, first + more) == AddAll(AddAll(chosen, first), more)
  {
    if more == [] {
      assert first + more == first;
    } else {
      AddAllConcat(chosen, first, more[..|more| - 1]);
      assert (first + more)[..|first + more| - 1] == first + more[..|more| - 1];
    }
  }

  lemma AddTwo(chosen: seq<nat>, r: Option<nat>, s: Option<nat>)
    ensures AddAll(chosen, []) == chosen && AddAll(chosen, [r]) == Add(chosen, r)
    ensures AddAll(chosen, [r, s]) == Add(Add(chosen, r), s)
  {
    assert [r][..0] == [] && [r, s][..1] == [r];
  }

  method AddVersions(chosen: seq<nat>, original: Option<nat>, rendered: Option<nat>, adjusted: bool, edits: Edits)
      returns (longer: seq<nat>)
    ensures longer == AddAll(chosen, Versions(original, rendered, adjusted, edits))
  {
    hide Add, AddAll;
    AddTwo(chosen, Or(original, rendered), None);
    AddTwo(chosen, Or(rendered, original), None);
    AddTwo(chosen, rendered, original);
    if !adjusted || rendered.None? {
      return Add(chosen, Or(original, rendered));
    }
    match edits
    case OriginalOnly => longer := Add(chosen, Or(original, rendered));
    case BothVersions =>
      longer := Add(chosen, rendered);
      longer := Add(longer, original);
    case Edited => longer := Add(chosen, Or(rendered, original));
  }

  method AddStills(resources: seq<Resource>, byType: map<ResourceType, nat>, adjusted: bool, options: SendOptions)
      returns (chosen: seq<nat>)
    requires forall t :: Get(byType, t) == FirstOf(resources, t)
    ensures chosen == AddAll([], StillWanted(resources, adjusted, options))
  {
    hide FirstOf, IsRaw, Add, AddAll, Versions;
    var original, rendered, alternate := Get(byType, PhotoType), Get(byType, FullSizePhoto),
        Get(byType, AlternatePhoto);
    AddTwo([], original, Or(alternate, rendered));
    AddTwo([], Or(Or(alternate, rendered), original), None);
    if original.Some? && IsRaw(resources[original.value]) {
      match options.raw
      case RawOnly => chosen := Add([], original);
      case JpegOnly => chosen := Add([], Or(Or(alternate, rendered), original));
      case RawAndJpeg =>
        chosen := Add([], original);
        chosen := Add(chosen, Or(alternate, rendered));
    } else {
      chosen := AddVersions([], original, rendered, adjusted, options.edits);
      var versions := Versions(original, rendered, adjusted, options.edits);
      AddTwo(chosen, alternate, None);
      AddAllConcat([], versions, [alternate]);
      assert versions + [] == versions;
      if options.raw == RawAndJpeg {
        chosen := Add(chosen, alternate);
      }
    }
  }

  method AddMotion(chosen: seq<nat>, resources: seq<Resource>, byType: map<ResourceType, nat>, options: SendOptions)
      returns (longer: seq<nat>)
    requires forall t :: Get(byType, t) == FirstOf(resources, t)
    ensures longer == AddAll(chosen, MotionWanted(resources, options))
  {
    hide FirstOf, Add, AddAll;
    longer := chosen;
    AddTwo(chosen, None, None);
    if options.livePhotoVideo {
      var paired, pairedRendered := Get(byType, PairedVideo), Get(byType, FullSizePairedVideo);
      var motion := if options.edits == OriginalOnly then Or(paired, pairedRendered) else Or(pairedRendered, paired);
      AddTwo(chosen, motion, Or(paired, pairedRendered));
      assert [motion] + [] == [motion] &&
          [motion] + [Or(paired, pairedRendered)] == [motion, Or(paired, pairedRendered)];
      longer := Add(longer, motion);
      if options.edits == BothVersions {
        longer := Add(longer, Or(paired, pairedRendered));
      }
    }
  }

  method ChooseResources(resources: seq<Resource>, adjusted: bool, options: SendOptions, kind: AssetKind)
      returns (r: seq<Chosen>)
    ensures forall k | k in Picked(resources, adjusted, options, kind) :: k < |resources|
    ensures r == Described(resources, Picked(resources, adjusted, options, kind))
    ensures var chosen := Picked(resources, adjusted, options, kind);
      |r| == |chosen| &&
      forall i | 0 <= i < |r| :: chosen[i] < |resources| && DescribesAt(resources[chosen[i]], i, r[i])
  {
    hide FirstOf, Versions, StillWanted, MotionWanted, Add, AddAll, First, Described, DescribesAt;
    PickedFirsts(resources, adjusted, options, kind);
    forall k | k in Picked(resources, adjusted, options, kind)
      ensures k < |resources|
    {
      FirstIsThere(resources, k);
    }
    var byType := ByType(resources);
    var chosen: seq<nat>;
    if kind == VideoAsset {
      chosen := AddVersions([], Get(byType, VideoType), Get(byType, FullSizeVideo), adjusted, options.edits);
      var plain, edited := FirstOf(resources, VideoType), FirstOf(resources, FullSizeVideo);
      var versions := Versions(plain, edited, adjusted, options.edits);
      AddAllConcat([], versions, MotionWanted(resources, options));
    } else {
      chosen := AddStills(resources, byType, adjusted, options);
      AddAllConcat([], StillWanted(resources, adjusted, options), MotionWanted(resources, options));
    }
    chosen := AddMotion(chosen, resources, byType, options);
    if chosen == [] {
      chosen := Add([], Fallback(resources));
    }
    DescribedAll(resources, chosen);
    r := Described(resources, chosen);
  }

  lemma DescribedAll(resources: seq<Resource>, chosen: seq<nat>)
    requires forall k | k in chosen :: k < |resources|
    ensures var r := Described(resources, chosen);
      |r| == |chosen| &&
      forall i | 0 <= i < |r| :: chosen[i] < |resources| && DescribesAt(resources[chosen[i]], i, r[i])
  {
    forall i | 0 <= i < |chosen|
      ensures chosen[i] < |resources| && DescribesAt(resources[chosen[i]], i, Described(resources, chosen)[i])
    {
      assert chosen[i] in chosen;
    }
  }

  lemma FirstIsThere(resources: seq<Resource>, k: nat)
    requires First(resources, k)
    ensures k < |resources|
  {
  }

  method WithheldResources(resources: seq<Resource>, chosen: seq<Chosen>) returns (r: Option<seq<ResourceType>>)
    ensures r == Withheld(resources, seq(|chosen|, i requires 0 <= i < |chosen| => chosen[i].rtype))
  {
    if resources == [] {
      return None;
    }
    var sent := seq(|chosen|, i requires 0 <= i < |chosen| => chosen[i].rtype);
    var sentPerType := CountPerType(sent);
    var seenPerType: map<ResourceType, nat> := map[];
    var withheld: seq<ResourceType> := [];
    for i := 0 to |resources|
      invariant forall t | !IsSidecar(t) ::
        (if t in seenPerType then seenPerType[t] else 0) == CountType(TypesOf(resources)[..i], t)
      invariant withheld == LeftBehind(resources, sent, i)
    {
      var t := resources[i].rtype;
      assert TypesOf(resources)[..i + 1][..i] == TypesOf(resources)[..i];
      if !IsSidecar(t) {
        var index := if t in seenPerType then seenPerType[t] else 0;
        seenPerType := seenPerType[t := index + 1];
        if index >= (if t in sentPerType then sentPerType[t] else 0) && t !in withheld {
          withheld := withheld + [t];
        }
      }
    }
    return Some(withheld);
  }

  method CountPerType(types: seq<ResourceType>) returns (counts: map<ResourceType, nat>)
    ensures forall t :: (if t in counts then counts[t] else 0) == CountType(types, t)
  {
    counts := map[];
    for i := 0 to |types|
      invariant forall t :: (if t in counts then counts[t] else 0) == CountType(types[..i], t)
    {
      assert types[..i + 1][..i] == types[..i];
      counts := counts[types[i] := (if types[i] in counts then counts[types[i]] else 0) + 1];
    }
    assert types[..|types|] == types;
  }
}
