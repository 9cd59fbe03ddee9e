/** The stored entity: a music band with its label, owned by a user, and
    the genre enumeration with its `names()` listing. */
module Bands {
  import opened Base
  import opened JavaText

  // ---------------------------------------------------------------- genres

  datatype MusicGenre = PsychedelicRock | HipHop | Soul | Blues | MathRock

  /** `MusicGenre.values()`: the constants in declaration order. */
  const Genres: seq<MusicGenre> := [PsychedelicRock, HipHop, Soul, Blues, MathRock]

  /** `name()`: the constant's identifier. */
  function GenreName(g: MusicGenre): string
  {
    match g
    case PsychedelicRock => "PSYCHEDELIC_ROCK"
    case HipHop => "HIP_HOP"
    case Soul => "SOUL"
    case Blues => "BLUES"
    case MathRock => "MATH_ROCK"
  }

  /** `ordinal()`: the constant's position in `values()`. */
  function Ordinal(g: MusicGenre): (r: nat)
    ensures r < |Genres| && Genres[r] == g
  {
    match g
    case PsychedelicRock => 0
    case HipHop => 1
    case Soul => 2
    case Blues => 3
    case MathRock => 4
  }

  /** Every constant occurs in `values()` exactly once, at its ordinal. */
  lemma GenresEnumerateAll()
    ensures forall g: MusicGenre :: g in Genres
    ensures forall i, j :: 0 <= i < j < |Genres| ==> Genres[i] != Genres[j]
    ensures forall i :: 0 <= i < |Genres| ==> Ordinal(Genres[i]) == i
  {
    forall g: MusicGenre ensures g in Genres {
      assert Genres[Ordinal(g)] == g;
    }
  }

  function NamesOf(gs: seq<MusicGenre>): (r: seq<string>)
    ensures |r| == |gs|
    ensures forall i :: 0 <= i < |gs| ==> r[i] == GenreName(gs[i])
  {
    if gs == [] then [] else NamesOf(gs[..|gs| - 1]) + [GenreName(gs[|gs| - 1])]
  }

  /** The text built by appending every name followed by the separator. */
  function Appended(parts: seq<string>, sep: string): string
  {
    if parts == [] then "" else Appended(parts[..|parts| - 1], sep) + parts[|parts| - 1] + sep
  }

  lemma {:induction false} AppendedIsJoinPlusSep(parts: seq<string>, sep: string)
    requires parts != []
    ensures Appended(parts, sep) == Join(parts, sep) + sep
  {
    if |parts| > 1 {
      var init := parts[..|parts| - 1];
      AppendedIsJoinPlusSep(init, sep);
      JoinSnoc(init, parts[|parts| - 1], sep);
      assert init + [parts[|parts| - 1]] == parts;
    }
  }

  /** `MusicGenre.names()`: every name followed by ", ", with the last two
      chars cut off, which is the names joined by ", " in declaration order. */
  method Names() returns (s: string)
    ensures s == Join(NamesOf(Genres), ", ")
  {
    var sb := "";
    var i := 0;
    ghost var names := NamesOf(Genres);
    while i < |Genres|
      invariant 0 <= i <= |Genres|
      invariant sb == Appended(names[..i], ", ")
    {
      assert names[..i + 1][..i] == names[..i];
      sb := sb + GenreName(Genres[i]) + ", ";
      i := i + 1;
    }
    assert names[..i] == names;
    AppendedIsJoinPlusSep(names, ", ");
    s := sb[..|sb| - 2];
  }

  lemma NamesOfGenres()
    ensures NamesOf(Genres) == ["PSYCHEDELIC_ROCK", "HIP_HOP", "SOUL", "BLUES", "MATH_ROCK"]
  {
    var names := NamesOf(Genres);
    assert |names| == 5;
    assert names[0] == "PSYCHEDELIC_ROCK" && names[1] == "HIP_HOP" && names[2] == "SOUL";
    assert names[3] == "BLUES" && names[4] == "MATH_ROCK";
  }

  /** The length of the listing: the names' lengths plus two chars between
      each two names, so nothing trails the last name. */
  lemma NamesLength()
    ensures |Join(NamesOf(Genres), ", ")| == TotalLength(NamesOf(Genres)) + 2 * (|Genres| - 1)
  {
    JoinLength(NamesOf(Genres), ", ");
  }

  // ---------------------------------------------------------------- bands

  /** A record label; `name` may be null. */
  datatype Label = Label(name: Option<string>, bands: int, sales: int)

  /** A stored band. Only the fields the collection and the commands read
      are kept: the id, the name, the genre (nullable), the label and the
      login of the owning user (nullable). */
  datatype MusicBand = MusicBand(
    id: int,
    name: string,
    genre: Option<MusicGenre>,
    recordLabel: Label,
    userLogin: Option<string>)

  /** `MusicBand.getLabelName`. */
  function LabelName(b: MusicBand): Option<string>
  {
    b.recordLabel.name
  }

  /** The behaviour of the band and label classes that the collection
      relies on but whose code is not part of this model: `validate()`,
      `toString()`, `Label.toString()`, the natural order (`compareTo`),
      expressed as a rank, and the band builder used by scripts, which
      reads some of the given lines and reports how many it used. */
  datatype BandApi = BandApi(
    isValid: MusicBand -> bool,
    text: MusicBand -> string,
    labelText: Label -> string,
    rank: MusicBand -> int,
    build: seq<string> -> (MusicBand, nat))
}
