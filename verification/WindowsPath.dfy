/** Lexical Windows paths: components, normalization and containment (crates/resticpal-core/src/restic.rs over the
    component rules of the Rust standard library). `lower` stands for Unicode lower-casing. */
module WindowsPath {
  import opened Common

  // ---------------------------------------------------------------- the text of a path

  datatype Prefix =
    | Disk(letter: char)
    | VerbatimDisk(letter: char)
    | Unc(server: string, share: string)
    | VerbatimUnc(server: string, share: string)
    | DeviceNs(device: string)
    | Verbatim(value: string)

  predicate IsVerbatim(prefix: Prefix) {
    prefix.VerbatimDisk? || prefix.VerbatimUnc? || prefix.Verbatim?
  }

  /** A path split into its prefix, an explicit root separator, and the rest. */
  datatype Path = Path(prefix: Option<Prefix>, rooted: bool, body: string)

  predicate IsSeparator(c: char, verbatim: bool) {
    c == '\\' || (c == '/' && !verbatim)
  }

  predicate IsLetter(c: char) {
    'a' <= c <= 'z' || 'A' <= c <= 'Z'
  }

  /** The text before the first separator. */
  function Piece(text: string, verbatim: bool): (piece: string)
    ensures piece <= text
    ensures |piece| < |text| ==> IsSeparator(text[|piece|], verbatim)
    ensures forall i :: 0 <= i < |piece| ==> !IsSeparator(piece[i], verbatim)
  {
    if text == [] || IsSeparator(text[0], verbatim) then [] else [text[0]] + Piece(text[1..], verbatim)
  }

  /** The text after the first separator, if there is one. */
  function AfterPiece(text: string, verbatim: bool): string {
    var piece := Piece(text, verbatim);
    if |piece| < |text| then text[|piece| + 1..] else []
  }

  function Rooted(prefix: Prefix, rest: string): Path {
    var verbatim := IsVerbatim(prefix);
    if rest != [] && IsSeparator(rest[0], verbatim) then Path(Some(prefix), true, rest[1..])
    else Path(Some(prefix), false, rest)
  }

  predicate StartsWithDrive(text: string) {
    |text| >= 2 && IsLetter(text[0]) && text[1] == ':'
  }

  /** Server and share, for both network forms. */
  function ParseNetwork(text: string, verbatim: bool): Path {
    var server := Piece(text, verbatim);
    var after := AfterPiece(text, verbatim);
    var share := Piece(after, verbatim);
    var rest := after[|share|..];
    if verbatim then Rooted(VerbatimUnc(server, share), rest)
    else if server != [] && share != [] then Rooted(Unc(server, share), rest)
    else Path(None, true, text)
  }

  function ParsePath(text: string): Path {
    if "\\\\?\\" <= text then
      var rest := text[4..];
      if "UNC\\" <= rest then ParseNetwork(rest[4..], true)
      else if StartsWithDrive(rest) && (|rest| == 2 || rest[2] == '\\') then Rooted(VerbatimDisk(rest[0]), rest[2..])
      else Rooted(Verbatim(Piece(rest, true)), rest[|Piece(rest, true)|..])
    else if && |text| >= 4 && IsSeparator(text[0], false) && IsSeparator(text[1], false)
            && text[2] == '.' && IsSeparator(text[3], false)
    then Rooted(DeviceNs(Piece(text[4..], false)), text[4 + |Piece(text[4..], false)|..])
    else if |text| >= 2 && IsSeparator(text[0], false) && IsSeparator(text[1], false)
    then ParseNetwork(text[2..], false)
    else if StartsWithDrive(text) then Rooted(Disk(text[0]), text[2..])
    else if text != [] && IsSeparator(text[0], false) then Path(None, true, text[1..])
    else Path(None, false, text)
  }

  predicate IsAbsolute(path: Path) {
    path.prefix.Some? && (path.rooted || !path.prefix.value.Disk?)
  }

  /** No absolute path can be mistaken for a command-line flag. */
  lemma AbsoluteIsNoFlag(text: string)
    requires IsAbsolute(ParsePath(text))
    ensures text != [] && text[0] != '-'
  {
  }

  // ---------------------------------------------------------------- components

  /** The pieces between separators. */
  function Pieces(body: string, verbatim: bool): seq<string>
    decreases |body|
  {
    var piece := Piece(body, verbatim);
    if |piece| == |body| then [piece] else [piece] + Pieces(body[|piece| + 1..], verbatim)
  }

  predicate IsName(piece: string, verbatim: bool) {
    piece != "" && piece != "." && piece != ".." && forall i :: 0 <= i < |piece| ==> !IsSeparator(piece[i], verbatim)
  }

  function LowerChar(c: char): char {
    if 'A' <= c <= 'Z' then c + 32 as char else c
  }

  function PrefixToken(prefix: Prefix, lower: string -> string): string {
    match prefix
    case Disk(letter) => "disk:" + [LowerChar(letter)]
    case VerbatimDisk(letter) => "disk:" + [LowerChar(letter)]
    case Unc(server, share) => "unc:" + lower(server) + "/" + lower(share)
    case VerbatimUnc(server, share) => "unc:" + lower(server) + "/" + lower(share)
    case DeviceNs(device) => "device:" + lower(device)
    case Verbatim(value) => "verbatim:" + lower(value)
  }

  /** The tokens no `..` can remove. */
  function Base(path: Path, lower: string -> string): seq<string>
    requires path.prefix.Some?
  {
    var prefix := path.prefix.value;
    [PrefixToken(prefix, lower)] +
    if path.rooted || (!prefix.Disk? && !IsVerbatim(prefix)) then ["root"] else []
  }

  /** One component: empty pieces and `.` vanish, `..` removes the last name and must not reach the floor. */
  function Descend(tokens: seq<string>, piece: string, floor: nat, lower: string -> string): Option<seq<string>> {
    if piece == "" || piece == "." then Some(tokens)
    else if piece == ".." then if |tokens| <= floor then None else Some(tokens[..|tokens| - 1])
    else Some(tokens + ["name:" + lower(piece)])
  }

  function DescendAll(tokens: seq<string>, pieces: seq<string>, floor: nat,
                      lower: string -> string): Option<seq<string>>
    decreases |pieces|
  {
    if pieces == [] then Some(tokens)
    else
      match Descend(tokens, pieces[0], floor, lower)
      case None => None
      case Some(next) => DescendAll(next, pieces[1..], floor, lower)
  }

  function Normalized(path: Path, lower: string -> string): Option<seq<string>> {
    if !IsAbsolute(path) then None
    else
      var base := Base(path, lower);
      DescendAll(base, Pieces(path.body, IsVerbatim(path.prefix.value)), |base|, lower)
  }

  /** The loop over the components. */
  method NormalizedWindowsPath(path: Path, lower: string -> string) returns (r: Option<seq<string>>)
    ensures r == Normalized(path, lower)
  {
    if !IsAbsolute(path) {
      return None;
    }
    var normalized := Base(path, lower);
    var floor := |normalized|;
    var pieces := Pieces(path.body, IsVerbatim(path.prefix.value));
    var i := 0;
    while i < |pieces|
      invariant 0 <= i <= |pieces|
      invariant DescendAll(normalized, pieces[i..], floor, lower) == Normalized(path, lower)
    {
      var piece := pieces[i];
      assert pieces[i..][1..] == pieces[i + 1..];
      if piece == "" || piece == "." {
      } else if piece == ".." {
        if |normalized| <= floor {
          return None;
        }
        normalized := normalized[..|normalized| - 1];
      } else {
        normalized := normalized + ["name:" + lower(piece)];
      }
      i := i + 1;
    }
    return Some(normalized);
  }

  // ---------------------------------------------------------------- containment

  predicate Contains(directory: Path, path: Path, lower: string -> string) {
    && Normalized(path, lower).Some? && Normalized(directory, lower).Some?
    && Normalized(directory, lower).value <= Normalized(path, lower).value
  }

  /** Containment is a preorder on the paths that normalize, relates nothing else, and two paths contain each other
      exactly when they normalize alike. */
  lemma ContainmentIsAPreorder(a: Path, b: Path, c: Path, lower: string -> string)
    ensures Contains(a, a, lower) <==> Normalized(a, lower).Some?
    ensures Contains(a, b, lower) && Contains(b, c, lower) ==> Contains(a, c, lower)
    ensures Contains(a, b, lower) && Contains(b, a, lower) <==>
              Normalized(a, lower).Some? && Normalized(a, lower) == Normalized(b, lower)
  {
    if Contains(a, b, lower) && Contains(b, c, lower) {
      PrefixTransitive(Normalized(a, lower).value, Normalized(b, lower).value, Normalized(c, lower).value);
    }
    if Contains(a, b, lower) && Contains(b, a, lower) {
      PrefixAntisymmetric(Normalized(a, lower).value, Normalized(b, lower).value);
    }
  }

  lemma PrefixTransitive(a: seq<string>, b: seq<string>, c: seq<string>)
    requires a <= b <= c
    ensures a <= c
  {
    assert a == b[..|a|] == c[..|b|][..|a|];
  }

  lemma PrefixAntisymmetric(a: seq<string>, b: seq<string>)
    requires a <= b && b <= a
    ensures a == b
  {
    assert a == b[..|a|] == b;
  }

  // ---------------------------------------------------------------- `.` and `name\\..` change nothing

  lemma {:induction false} DescendConcat(tokens: seq<string>, first: seq<string>, second: seq<string>, floor: nat,
                                         lower: string -> string)
    ensures DescendAll(tokens, first + second, floor, lower) ==
            match DescendAll(tokens, first, floor, lower)
            case None => None
            case Some(next) => DescendAll(next, second, floor, lower)
    decreases |first|
  {
    if first == [] {
      assert first + second == second;
    } else {
      assert (first + second)[1..] == first[1..] + second;
      match Descend(tokens, first[0], floor, lower)
      case None =>
      case Some(next) => DescendConcat(next, first[1..], second, floor, lower);
    }
  }

  /** Pieces that lead nowhere. */
  predicate IsDetour(detour: seq<string>) {
    detour == ["."] || (|detour| == 2 && detour[0] != "" && detour[0] != "." && detour[0] != ".." && detour[1] == "..")
  }

  lemma DetourLeadsNowhere(tokens: seq<string>, detour: seq<string>, floor: nat, lower: string -> string)
    requires IsDetour(detour) && floor <= |tokens|
    ensures DescendAll(tokens, detour, floor, lower) == Some(tokens)
  {
    if |detour| == 2 {
      var inside := tokens + ["name:" + lower(detour[0])];
      assert DescendAll(tokens, detour, floor, lower) == DescendAll(inside, detour[1..], floor, lower);
      assert inside[..|inside| - 1] == tokens;
      assert detour[1..][1..] == [];
    } else {
      assert detour[1..] == [];
    }
  }

  lemma {:induction false} StaysAboveFloor(tokens: seq<string>, pieces: seq<string>, floor: nat,
                                           lower: string -> string)
    requires floor <= |tokens|
    ensures DescendAll(tokens, pieces, floor, lower).Some? ==> floor <= |DescendAll(tokens, pieces, floor, lower).value|
    decreases |pieces|
  {
    if pieces != [] && Descend(tokens, pieces[0], floor, lower).Some? {
      StaysAboveFloor(Descend(tokens, pieces[0], floor, lower).value, pieces[1..], floor, lower);
    }
  }

  /** A detour between any two components leaves the normal form as it is. */
  lemma DetourAnywhere(tokens: seq<string>, before: seq<string>, detour: seq<string>, after: seq<string>, floor: nat,
                       lower: string -> string)
    requires IsDetour(detour) && floor <= |tokens|
    ensures DescendAll(tokens, before + (detour + after), floor, lower) ==
            DescendAll(tokens, before + after, floor, lower)
  {
    DescendConcat(tokens, before, detour + after, floor, lower);
    DescendConcat(tokens, before, after, floor, lower);
    StaysAboveFloor(tokens, before, floor, lower);
    match DescendAll(tokens, before, floor, lower)
    case None =>
    case Some(next) =>
      DescendConcat(next, detour, after, floor, lower);
      DetourLeadsNowhere(next, detour, floor, lower);
  }

  /** Cutting the text at a separator cuts the pieces. */
  lemma {:induction false} PiecesConcat(a: string, separator: char, b: string, verbatim: bool)
    requires IsSeparator(separator, verbatim)
    ensures Pieces(a + ([separator] + b), verbatim) == Pieces(a, verbatim) + Pieces(b, verbatim)
    decreases |a|
  {
    var piece, tail := Piece(a, verbatim), [separator] + b;
    PieceConcat(a, separator, b, verbatim);
    if |piece| == |a| {
      assert piece == a;
      DropConcat(a + [separator], b);
      ConcatAssociates(a, [separator], b);
      assert Pieces(a + tail, verbatim) == [piece] + Pieces(b, verbatim);
    } else {
      var rest := a[|piece| + 1..];
      DropFront(a, tail, |piece| + 1);
      PiecesConcat(rest, separator, b, verbatim);
      assert Pieces(a + tail, verbatim) == [piece] + Pieces(rest + tail, verbatim);
      ConcatAssociates([piece], Pieces(rest, verbatim), Pieces(b, verbatim));
    }
  }

  lemma DropFront(a: string, b: string, k: nat)
    requires k <= |a|
    ensures (a + b)[k..] == a[k..] + b
  {
  }

  lemma {:induction false} PieceConcat(a: string, separator: char, b: string, verbatim: bool)
    requires IsSeparator(separator, verbatim)
    ensures Piece(a + ([separator] + b), verbatim) == Piece(a, verbatim)
    decreases |a|
  {
    var tail := [separator] + b;
    if a == [] {
      assert a + tail == tail;
    } else if !IsSeparator(a[0], verbatim) {
      DropFront(a, tail, 1);
      PieceConcat(a[1..], separator, b, verbatim);
    }
  }

  lemma {:induction false} WholePiece(name: string, verbatim: bool)
    requires forall i :: 0 <= i < |name| ==> !IsSeparator(name[i], verbatim)
    ensures Piece(name, verbatim) == name && Pieces(name, verbatim) == [name]
  {
    if name != [] {
      WholePiece(name[1..], verbatim);
      assert [name[0]] + name[1..] == name;
    }
  }

  /** The text inserted for a detour, before what follows it: `.\` or `name\..\`. */
  function Detoured(detour: seq<string>, separator: char, rest: string): string
    requires IsDetour(detour)
  {
    if |detour| == 1 then "." + ([separator] + rest) else detour[0] + ([separator] + (".." + ([separator] + rest)))
  }

  predicate Nameable(detour: seq<string>, verbatim: bool) {
    IsDetour(detour) && (|detour| == 2 ==> IsName(detour[0], verbatim))
  }

  lemma DetouredPieces(detour: seq<string>, separator: char, rest: string, verbatim: bool)
    requires Nameable(detour, verbatim) && IsSeparator(separator, verbatim)
    ensures Pieces(Detoured(detour, separator, rest), verbatim) == detour + Pieces(rest, verbatim)
  {
    if |detour| == 1 {
      PiecesConcat(".", separator, rest, verbatim);
      WholePiece(".", verbatim);
    } else {
      PiecesConcat(detour[0], separator, ".." + ([separator] + rest), verbatim);
      WholePiece(detour[0], verbatim);
      PiecesConcat("..", separator, rest, verbatim);
      WholePiece("..", verbatim);
      TwoPieces(detour[0], detour[1], Pieces(rest, verbatim));
      assert detour == [detour[0], detour[1]];
    }
  }

  lemma TwoPieces(a: string, b: string, rest: seq<string>)
    ensures [a] + ([b] + rest) == [a, b] + rest
  {
  }

  /** The two paths normalize alike and are interchangeable in every containment. */
  ghost predicate Interchangeable(p: Path, q: Path, lower: string -> string) {
    && Normalized(p, lower) == Normalized(q, lower)
    && forall other :: (Contains(other, p, lower) <==> Contains(other, q, lower))
                       && (Contains(p, other, lower) <==> Contains(q, other, lower))
  }

  /** Inserting `.\` or `name\..\` right after the root changes no containment. */
  lemma DetourAfterRoot(path: Path, detour: seq<string>, separator: char, lower: string -> string)
    requires path.prefix.Some? && IsSeparator(separator, IsVerbatim(path.prefix.value))
    requires Nameable(detour, IsVerbatim(path.prefix.value))
    ensures Interchangeable(path.(body := Detoured(detour, separator, path.body)), path, lower)
  {
    var verbatim, base := IsVerbatim(path.prefix.value), Base(path, lower);
    var pieces := Pieces(path.body, verbatim);
    DetouredPieces(detour, separator, path.body, verbatim);
    DetourAnywhere(base, [], detour, pieces, |base|, lower);
    assert [] + (detour + pieces) == detour + pieces && [] + pieces == pieces;
  }

  /** Nor does inserting it after any later separator. */
  lemma DetourInside(path: Path, before: string, after: string, detour: seq<string>, separator: char,
                     lower: string -> string)
    requires path.prefix.Some? && IsSeparator(separator, IsVerbatim(path.prefix.value))
    requires Nameable(detour, IsVerbatim(path.prefix.value)) && path.body == before + ([separator] + after)
    ensures Interchangeable(path.(body := before + ([separator] + Detoured(detour, separator, after))), path, lower)
  {
    var verbatim, base := IsVerbatim(path.prefix.value), Base(path, lower);
    DetouredPieces(detour, separator, after, verbatim);
    PiecesConcat(before, separator, after, verbatim);
    PiecesConcat(before, separator, Detoured(detour, separator, after), verbatim);
    DetourAnywhere(base, Pieces(before, verbatim), detour, Pieces(after, verbatim), |base|, lower);
  }
}
