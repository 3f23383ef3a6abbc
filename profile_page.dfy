/**
 * The list logic of the profile editor (app/profile/page.tsx): parsing a
 * comma-separated box into a list, adding, removing and editing entries of
 * the repeated sections, validating an uploaded photo, and the panel of
 * recent chat messages.
 */
module ProfilePage {
  import opened Wrappers
  import opened Text
  import opened Types

  /** Trims every piece. */
  function TrimAll(pieces: seq<string>): (r: seq<string>)
    ensures |r| == |pieces|
    ensures forall k :: 0 <= k < |r| ==> r[k] == Trim(pieces[k])
  {
    if pieces == [] then [] else [Trim(pieces[0])] + TrimAll(pieces[1..])
  }

  lemma TrimAllKeepsOut(pieces: seq<string>, c: char)
    requires forall k :: 0 <= k < |pieces| ==> c !in pieces[k]
    ensures forall k :: 0 <= k < |pieces| ==> c !in TrimAll(pieces)[k]
  {
    forall k | 0 <= k < |pieces| ensures c !in TrimAll(pieces)[k] {
      TrimKeepsOut(pieces[k], c);
    }
  }

  /**
   * `value.split(",").map(s => s.trim())`: one piece more than there are
   * commas, so an empty box gives one empty piece, not an empty list.
   */
  function ParseList(value: string): (items: seq<string>)
    ensures |items| == Count(value, ',') + 1
    ensures value == "" ==> items == [""]
    ensures forall k :: 0 <= k < |items| ==> Trimmed(items[k]) && ',' !in items[k]
  {
    var pieces := Split(value, ',');
    TrimAllKeepsOut(pieces, ',');
    TrimAll(pieces)
  }

  /** A piece after leading white space trims to itself. */
  lemma TrimAfterSpace(w: string, x: string)
    requires AllSpace(w) && Trimmed(x)
    ensures Trim(w + x) == x
  {
    TrimSurrounded(w, x, []);
    assert w + x + [] == w + x;
  }

  lemma NoCommaAfterSpace(w: string, x: string)
    requires AllSpace(w) && ',' !in x
    ensures ',' !in w + x
  {
    forall i | 0 <= i < |w + x| ensures (w + x)[i] != ',' {
      if i < |w| {
        assert IsSpace(w[i]);
      }
    }
  }

  lemma TrimAllCons(a: string, tail: seq<string>)
    ensures TrimAll([a] + tail) == [Trim(a)] + TrimAll(tail)
  {
    assert ([a] + tail)[1..] == tail;
  }

  /** `w + x + ", " + rest` is the piece `w + x`, a comma, and `" " + rest`. */
  lemma CommaSpaceRegroup(w: string, x: string, rest: string)
    ensures w + (x + ", " + rest) == (w + x) + [','] + (" " + rest)
  {
  }

  /** Items that a joined box gives back: no comma, no surrounding white space. */
  predicate Listable(xs: seq<string>) {
    forall k :: 0 <= k < |xs| ==> ',' !in xs[k] && Trimmed(xs[k])
  }

  lemma {:induction false} ParseJoinAfterSpace(w: string, xs: seq<string>)
    requires AllSpace(w) && |xs| > 0 && Listable(xs)
    ensures TrimAll(Split(w + Join(xs, ", "), ',')) == xs
    decreases |xs|
  {
    var piece := w + xs[0];
    NoCommaAfterSpace(w, xs[0]);
    TrimAfterSpace(w, xs[0]);
    if |xs| == 1 {
      SplitWhole(piece, ',');
      TrimAllCons(piece, []);
    } else {
      var tailItems := xs[1..];
      var rest := Join(tailItems, ", ");
      assert Join(xs, ", ") == xs[0] + ", " + rest;
      CommaSpaceRegroup(w, xs[0], rest);
      var pieces := Split(" " + rest, ',');
      SplitAfterPiece(piece, ',', " " + rest);
      assert Split(w + Join(xs, ", "), ',') == [piece] + pieces;
      assert AllSpace(" ") && Listable(tailItems);
      ParseJoinAfterSpace(" ", tailItems);
      assert TrimAll(pieces) == tailItems;
      TrimAllCons(piece, pieces);
      assert [xs[0]] + tailItems == xs;
    }
  }

  /**
   * The box shows `list.join(", ")`; parsing that text gives the list back
   * when it is non-empty and no item holds a comma or surrounding white space.
   */
  lemma ParseJoinRoundTrip(xs: seq<string>)
    requires |xs| > 0 && Listable(xs)
    ensures ParseList(Join(xs, ", ")) == xs
  {
    ParseJoinAfterSpace("", xs);
    assert "" + Join(xs, ", ") == Join(xs, ", ");
  }

  /** The string-list fields of a profile that a comma-separated box can set. */
  datatype ListField =
    TechnicalSkills | Skills | Accomplishments | Languages | Extracurricular | Workshops | Conferences

  function ListOf(p: Profile, f: ListField): seq<string> {
    match f
    case TechnicalSkills => p.technicalSkills
    case Skills => p.skills
    case Accomplishments => p.accomplishments
    case Languages => p.languages
    case Extracurricular => p.extracurricular
    case Workshops => p.workshops
    case Conferences => p.conferences
  }

  /** Every field that is not a string list agrees. */
  predicate SameOutsideLists(p: Profile, q: Profile) {
    && p.about == q.about && p.education == q.education && p.experience == q.experience
    && p.internships == q.internships && p.projects == q.projects
    && p.socialProfiles == q.socialProfiles && p.contact == q.contact && p.personal == q.personal
    && p.certificates == q.certificates && p.courses == q.courses
    && p.theme == q.theme && p.profilePhoto == q.profilePhoto
  }

  /** The profile with list `f` replaced by `items`. */
  function WithList(p: Profile, f: ListField, items: seq<string>): (r: Profile)
    ensures ListOf(r, f) == items
    ensures forall g :: g != f ==> ListOf(r, g) == ListOf(p, g)
    ensures SameOutsideLists(r, p)
  {
    match f
    case TechnicalSkills => p.(technicalSkills := items)
    case Skills => p.(skills := items)
    case Accomplishments => p.(accomplishments := items)
    case Languages => p.(languages := items)
    case Extracurricular => p.(extracurricular := items)
    case Workshops => p.(workshops := items)
    case Conferences => p.(conferences := items)
  }

  /** `handleArrayInput`: the named list becomes the parsed box; nothing else changes. */
  function HandleArrayInput(p: Profile, f: ListField, value: string): (r: Profile)
    ensures ListOf(r, f) == ParseList(value)
    ensures |ListOf(r, f)| == Count(value, ',') + 1
    ensures forall g :: g != f ==> ListOf(r, g) == ListOf(p, g)
    ensures SameOutsideLists(r, p)
  {
    WithList(p, f, ParseList(value))
  }

  /** What the file picker hands over: the MIME type and the size in bytes. */
  datatype PhotoFile = PhotoFile(mimeType: string, size: nat)

  const MaxPhotoBytes: nat := 2 * 1024 * 1024

  datatype PhotoCheck = NoFile | NotAnImage | TooLarge | Accepted

  function StartsWith(s: string, prefix: string): bool {
    |prefix| <= |s| && s[..|prefix|] == prefix
  }

  /** The checks of `handlePhotoUpload`, in their order. */
  function CheckPhoto(file: Option<PhotoFile>): PhotoCheck {
    if file.None? then NoFile
    else if !StartsWith(file.value.mimeType, "image/") then NotAnImage
    else if file.value.size > MaxPhotoBytes then TooLarge
    else Accepted
  }

  /** The alert shown for a rejected file. */
  function PhotoAlert(c: PhotoCheck): Option<string> {
    match c
    case NotAnImage => Some("Please select an image file")
    case TooLarge => Some("Image size should be less than 2MB")
    case _ => None
  }

  /**
   * `handlePhotoUpload`: an image of at most 2 MiB becomes the profile
   * photo (as the data URL the reader produces); anything else leaves the
   * profile unchanged.
   */
  function HandlePhotoUpload(p: Profile, file: Option<PhotoFile>, dataUrl: string): (r: Profile)
    ensures file.Some? && StartsWith(file.value.mimeType, "image/") && file.value.size <= MaxPhotoBytes ==>
      r == p.(profilePhoto := Some(dataUrl))
    ensures !(file.Some? && StartsWith(file.value.mimeType, "image/") && file.value.size <= MaxPhotoBytes) ==>
      r == p
    ensures PhotoAlert(CheckPhoto(file)).Some? ==> r == p
  {
    if CheckPhoto(file) == Accepted then p.(profilePhoto := Some(dataUrl)) else p
  }

  /** `handleRemovePhoto`: the photo goes; nothing else changes. */
  function HandleRemovePhoto(p: Profile): (r: Profile)
    ensures r.profilePhoto.None?
    ensures r.(profilePhoto := p.profilePhoto) == p
  {
    p.(profilePhoto := None)
  }

  /** Removing the photo undoes any upload, accepted or not. */
  lemma RemoveUndoesUpload(p: Profile, file: Option<PhotoFile>, dataUrl: string)
    ensures HandleRemovePhoto(HandlePhotoUpload(p, file, dataUrl)) == HandleRemovePhoto(p)
  {
  }

  /** `filter((_, i) => i !== index)`: drops the entry at `index`, keeps the rest in order. */
  function RemoveAt<T>(xs: seq<T>, index: int): (r: seq<T>)
    ensures 0 <= index < |xs| ==> r == xs[..index] + xs[index + 1..]
    ensures !(0 <= index < |xs|) ==> r == xs
  {
    if xs == [] then []
    else
      var rest := RemoveAt(xs[1..], index - 1);
      assert 0 < index <= |xs[1..]| ==> xs[..index] + xs[index + 1..] == [xs[0]] + (xs[1..][..index - 1] + xs[1..][index..]);
      (if index == 0 then [] else [xs[0]]) + rest
  }

  /** `[...list, blank]`: one blank entry at the end, earlier entries intact. */
  function AddBlank<T>(xs: seq<T>, blank: T): (r: seq<T>)
    ensures |r| == |xs| + 1 && r[..|xs|] == xs && r[|xs|] == blank
  {
    xs + [blank]
  }

  /** Removing the entry just added gives the list back. */
  lemma RemoveUndoesAdd<T>(xs: seq<T>, blank: T)
    ensures RemoveAt(AddBlank(xs, blank), |xs|) == xs
  {
    var ys := AddBlank(xs, blank);
    assert ys[|xs| + 1..] == [];
    assert ys[..|xs|] + [] == xs;
  }

  /** Copy the list, then change the entry at `index` only. */
  function UpdateAt<T>(xs: seq<T>, index: nat, change: T -> T): (r: seq<T>)
    requires index < |xs|
    ensures |r| == |xs| && r[index] == change(xs[index])
    ensures forall j :: 0 <= j < |xs| && j != index ==> r[j] == xs[j]
  {
    xs[index := change(xs[index])]
  }

  const BlankSocial: SocialProfile := SocialProfile("", "")
  const BlankExperience: Experience := Experience("", "", "", "", "")
  const BlankInternship: Internship := Internship("", "", "", "")
  const BlankProject: Project := Project("", "", [], None)
  const BlankCertification: Certification := Certification("", "", "")
  const BlankCourse: Course := Course("", "", "")

  datatype ExperienceField = Role | Company | StartDate | EndDate | Description

  function SetExperienceField(e: Experience, f: ExperienceField, value: string): Experience {
    match f
    case Role => e.(role := value)
    case Company => e.(company := value)
    case StartDate => e.(startDate := value)
    case EndDate => e.(endDate := value)
    case Description => e.(description := value)
  }

  /** An edit box of the experience list: one field of one entry. */
  function EditExperience(p: Profile, index: nat, f: ExperienceField, value: string): (r: Profile)
    requires index < |p.experience|
    ensures |r.experience| == |p.experience|
    ensures r.experience[index] == SetExperienceField(p.experience[index], f, value)
    ensures forall j :: 0 <= j < |p.experience| && j != index ==> r.experience[j] == p.experience[j]
    ensures r == p.(experience := r.experience)
  {
    p.(experience := UpdateAt(p.experience, index, e => SetExperienceField(e, f, value)))
  }

  /** The project edit for technologies parses its box like `handleArrayInput`. */
  function EditProjectTechnologies(p: Profile, index: nat, value: string): (r: Profile)
    requires index < |p.projects|
    ensures |r.projects| == |p.projects|
    ensures r.projects[index].technologies == ParseList(value)
    ensures r.projects[index] == p.projects[index].(technologies := ParseList(value))
    ensures forall j :: 0 <= j < |p.projects| && j != index ==> r.projects[j] == p.projects[j]
    ensures r == p.(projects := r.projects)
  {
    p.(projects := UpdateAt(p.projects, index, (pr: Project) => pr.(technologies := ParseList(value))))
  }

  function Reverse<T>(xs: seq<T>): (r: seq<T>)
    ensures |r| == |xs|
    ensures forall i :: 0 <= i < |xs| ==> r[i] == xs[|xs| - 1 - i]
  {
    if xs == [] then [] else Reverse(xs[1..]) + [xs[0]]
  }

  /** `parsed.slice(-3).reverse()`: the last three messages at most, most recent first. */
  function RecentChats(messages: seq<ChatMessage>): (r: seq<ChatMessage>)
    ensures |r| == if |messages| < 3 then |messages| else 3
    ensures forall i :: 0 <= i < |r| ==> r[i] == messages[|messages| - 1 - i]
  {
    var start := if |messages| < 3 then 0 else |messages| - 3;
    Reverse(messages[start..])
  }
}
