/**
 * The font resolver of src/font.rs: the faces of a chosen font family fill
 * the normal, bold and italic slots of a terminal font according to each
 * face's style and weight.
 */
module FontResolve {
  import opened Wrappers

  /** Pango's font styles; `UnknownStyle` carries any other numeric style. */
  datatype Style = Normal | Oblique | Italic | UnknownStyle(value: int)

  /** Pango's font weights; `UnknownWeight` carries any other numeric weight. */
  datatype Weight =
    // `Regular` is Pango's `Weight::Normal`, renamed apart from `Normal` of `Style`.
    | Thin | Ultralight | Light | Semilight | Book | Regular | Medium
    | Semibold | Bold | Ultrabold | Heavy | Ultraheavy | UnknownWeight(value: int)

  /** What `describe()` reports of a face. */
  datatype Description = Description(style: Style, weight: Weight)

  /** A face of a family: its name and, when Pango can describe it, its description. */
  datatype Face = Face(faceName: Option<string>, description: Option<Description>)

  /** A font family: its name, when it has one, and its faces in listing order. */
  datatype Family = Family(name: Option<string>, faces: seq<Face>)

  /** One slot of the terminal font: a family name and an optional face (style) name. */
  datatype FontDescription = FontDescription(family: string, style: Option<string>)

  /** The font size, kept as the toolkit's scaled value; its conversion to points is not modelled. */
  datatype Size = Size(scaled: int)

  /** The terminal font: three slots and a size. */
  datatype Font = Font(normal: FontDescription, bold: FontDescription, italic: FontDescription, size: Size)

  datatype Slot = NormalSlot | BoldSlot | ItalicSlot

  /** The slot a face fills: (Normal, Regular) the normal one, (Normal, Bold) the bold one, (Italic, Regular) the italic one. */
  function SlotOf(face: Face): Option<Slot> {
    match face.description
    case None => None
    case Some(d) =>
      match (d.style, d.weight)
      case (Normal, Regular) => Some(NormalSlot)
      case (Normal, Bold) => Some(BoldSlot)
      case (Italic, Regular) => Some(ItalicSlot)
      case _ => None
  }

  function GetSlot(f: Font, s: Slot): FontDescription {
    match s
    case NormalSlot => f.normal
    case BoldSlot => f.bold
    case ItalicSlot => f.italic
  }

  /** `f` with slot `s` replaced by `d`. */
  function SetSlot(f: Font, s: Slot, d: FontDescription): (r: Font)
    ensures GetSlot(r, s) == d && r.size == f.size
    ensures forall t :: t != s ==> GetSlot(r, t) == GetSlot(f, t)
  {
    match s
    case NormalSlot => f.(normal := d)
    case BoldSlot => f.(bold := d)
    case ItalicSlot => f.(italic := d)
  }

  /**
   * One step of the walk over the faces. A face that fills a slot sets it to
   * the family's name and the face's name, and aborts (`None`) when the family
   * has no name; any other face changes nothing.
   */
  function ApplyFace(name: Option<string>, acc: Font, face: Face): Option<Font> {
    match SlotOf(face)
    case None => Some(acc)
    case Some(s) => if name.None? then None else Some(SetSlot(acc, s, FontDescription(name.value, face.faceName)))
  }

  /** The walk over `faces`, first to last, from the font `acc`; `None` when it aborts. */
  function ResolveFaces(name: Option<string>, acc: Font, faces: seq<Face>): Option<Font>
    decreases |faces|
  {
    if faces == [] then Some(acc)
    else
      match ApplyFace(name, acc, faces[0])
      case None => None
      case Some(next) => ResolveFaces(name, next, faces[1..])
  }

  /**
   * The resolver: starts from the default font with the chosen size and walks
   * the family's faces in order. `None` stands for the abort on a family
   * without a name.
   */
  method ToAlacritty(fam: Family, size: int, default: Font) returns (r: Option<Font>)
    ensures r == ResolveFaces(fam.name, default.(size := Size(size)), fam.faces)
  {
    var newf := default.(size := Size(size));
    ghost var start := newf;
    var i := 0;
    while i < |fam.faces|
      invariant 0 <= i <= |fam.faces|
      invariant ResolveFaces(fam.name, start, fam.faces) == ResolveFaces(fam.name, newf, fam.faces[i..])
    {
      var face := fam.faces[i];
      assert fam.faces[i..][0] == face && fam.faces[i..][1..] == fam.faces[i + 1..];
      if face.description.Some? {
        var desc := face.description.value;
        match (desc.style, desc.weight) {
          case (Normal, Regular) =>
            if fam.name.None? { return None; }
            newf := newf.(normal := FontDescription(fam.name.value, face.faceName));
          case (Normal, Bold) =>
            if fam.name.None? { return None; }
            newf := newf.(bold := FontDescription(fam.name.value, face.faceName));
          case (Italic, Regular) =>
            if fam.name.None? { return None; }
            newf := newf.(italic := FontDescription(fam.name.value, face.faceName));
          case _ =>
        }
      }
      i := i + 1;
    }
    return Some(newf);
  }

  /** Some face of `faces` fills a slot. */
  predicate SomeFaceMatches(faces: seq<Face>) {
    exists k :: 0 <= k < |faces| && SlotOf(faces[k]).Some?
  }

  /** The walk aborts exactly when the family has no name and some face fills a slot. */
  lemma {:induction false} ResolveAbortsIff(name: Option<string>, acc: Font, faces: seq<Face>)
    ensures ResolveFaces(name, acc, faces).None? <==> name.None? && SomeFaceMatches(faces)
    decreases |faces|
  {
    if faces != [] {
      if SlotOf(faces[0]).Some? {
        assert SomeFaceMatches(faces);
        if name.Some? {
          ResolveAbortsIff(name, ApplyFace(name, acc, faces[0]).value, faces[1..]);
        }
      } else {
        ResolveAbortsIff(name, acc, faces[1..]);
        assert SomeFaceMatches(faces) <==> SomeFaceMatches(faces[1..]) by {
          if SomeFaceMatches(faces) {
            var k :| 0 <= k < |faces| && SlotOf(faces[k]).Some?;
            assert k > 0 && faces[1..][k - 1] == faces[k];
          }
          if SomeFaceMatches(faces[1..]) {
            var k :| 0 <= k < |faces[1..]| && SlotOf(faces[1..][k]).Some?;
            assert faces[k + 1] == faces[1..][k];
          }
        }
      }
    }
  }

  /**
   * The last face of `faces` that fills slot `s`: `None` when no face does;
   * otherwise a face at some index j that fills `s`, with no later face filling it.
   */
  function LastFaceFor(faces: seq<Face>, s: Slot): (r: Option<Face>)
    ensures r.None? <==> forall k :: 0 <= k < |faces| ==> SlotOf(faces[k]) != Some(s)
    ensures r.Some? ==> exists j :: 0 <= j < |faces| && faces[j] == r.value && SlotOf(faces[j]) == Some(s)
                                    && forall k :: j < k < |faces| ==> SlotOf(faces[k]) != Some(s)
    decreases |faces|
  {
    if faces == [] then None
    else
      var later := LastFaceFor(faces[1..], s);
      if later.Some? then
        ghost var j :| 0 <= j < |faces[1..]| && faces[1..][j] == later.value && SlotOf(faces[1..][j]) == Some(s)
                       && forall k :: j < k < |faces[1..]| ==> SlotOf(faces[1..][k]) != Some(s);
        assert faces[j + 1] == later.value;
        assert forall k :: j + 1 < k < |faces| ==> faces[k] == faces[1..][k - 1];
        later
      else if SlotOf(faces[0]) == Some(s) then
        assert forall k :: 0 < k < |faces| ==> faces[k] == faces[1..][k - 1];
        Some(faces[0])
      else
        assert forall k :: 0 < k < |faces| ==> faces[k] == faces[1..][k - 1];
        None
  }

  /** What slot `s` holds after the walk: the last matching face wins, and without one the slot is as it was. */
  function SlotAfter(name: string, before: FontDescription, faces: seq<Face>, s: Slot): FontDescription {
    match LastFaceFor(faces, s)
    case None => before
    case Some(f) => FontDescription(name, f.faceName)
  }

  /**
   * For a named family the walk succeeds, keeps the size, and sets each slot
   * independently to the family name and the name of the last face filling it;
   * a slot no face fills keeps its previous family and style.
   */
  lemma {:induction false} ResolveSlots(name: string, acc: Font, faces: seq<Face>)
    ensures ResolveFaces(Some(name), acc, faces).Some?
    ensures var r := ResolveFaces(Some(name), acc, faces).value;
      && r.size == acc.size
      && forall s :: GetSlot(r, s) == SlotAfter(name, GetSlot(acc, s), faces, s)
    decreases |faces|
  {
    if faces != [] {
      var next := ApplyFace(Some(name), acc, faces[0]).value;
      ResolveSlots(name, next, faces[1..]);
      forall s ensures SlotAfter(name, GetSlot(next, s), faces[1..], s) == SlotAfter(name, GetSlot(acc, s), faces, s) {
        var later := LastFaceFor(faces[1..], s);
        if later.None? && SlotOf(faces[0]) != Some(s) {
          assert GetSlot(next, s) == GetSlot(acc, s);
        }
      }
    }
  }

  /** A walk that succeeds keeps the size it started from, whether or not the family has a name. */
  lemma {:induction false} ResolveKeepsSize(name: Option<string>, acc: Font, faces: seq<Face>)
    ensures ResolveFaces(name, acc, faces).Some? ==> ResolveFaces(name, acc, faces).value.size == acc.size
    decreases |faces|
  {
    if faces != [] {
      match ApplyFace(name, acc, faces[0])
      case None =>
      case Some(next) => ResolveKeepsSize(name, next, faces[1..]);
    }
  }

  /**
   * Every resolved font has the chosen size, whatever the faces; a named family
   * always resolves.
   */
  lemma ResolverSize(fam: Family, size: int, default: Font)
    ensures fam.name.Some? ==> ResolveFaces(fam.name, default.(size := Size(size)), fam.faces).Some?
    ensures ResolveFaces(fam.name, default.(size := Size(size)), fam.faces).Some? ==>
              ResolveFaces(fam.name, default.(size := Size(size)), fam.faces).value.size == Size(size)
  {
    ResolveKeepsSize(fam.name, default.(size := Size(size)), fam.faces);
    if fam.name.Some? {
      ResolveSlots(fam.name.value, default.(size := Size(size)), fam.faces);
    }
  }

  /**
   * A family with a single (Normal, Regular) face sets the normal slot to the
   * family and that face's name, and leaves bold and italic at the default font's
   * family and style.
   */
  lemma OnlyRegularFace(name: string, faceName: Option<string>, size: int, default: Font)
    ensures var fam := Family(Some(name), [Face(faceName, Some(Description(Normal, Regular)))]);
      ResolveFaces(fam.name, default.(size := Size(size)), fam.faces)
        == Some(default.(size := Size(size), normal := FontDescription(name, faceName)))
  {
    var faces := [Face(faceName, Some(Description(Normal, Regular)))];
    assert faces[1..] == [];
  }
}
