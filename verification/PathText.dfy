/** Detours in the text of a path: parsing commutes with replacing what follows the root, so the laws about parsed
    paths hold of the text itself (crates/resticpal-core/src/restic.rs). */
module PathText {
  import opened Common
  import opened WindowsPath

  predicate Separated(piece: string, verbatim: bool) {
    forall i :: 0 <= i < |piece| ==> !IsSeparator(piece[i], verbatim)
  }

  lemma PieceOfFront(piece: string, separator: char, rest: string, verbatim: bool)
    requires Separated(piece, verbatim) && IsSeparator(separator, verbatim)
    ensures Piece(piece + ([separator] + rest), verbatim) == piece
    ensures AfterPiece(piece + ([separator] + rest), verbatim) == rest
  {
    PieceConcat(piece, separator, rest, verbatim);
    WholePiece(piece, verbatim);
    assert (piece + ([separator] + rest))[|piece| + 1..] == rest;
  }

  /** Text with a separator, cut at the first one. */
  lemma CutAtPiece(text: string, verbatim: bool) returns (separator: char)
    requires |Piece(text, verbatim)| < |text|
    ensures IsSeparator(separator, verbatim) && Separated(Piece(text, verbatim), verbatim)
    ensures text == Piece(text, verbatim) + ([separator] + AfterPiece(text, verbatim))
  {
    var piece := Piece(text, verbatim);
    separator := text[|piece|];
    assert text[..|piece|] == piece;
    assert text == text[..|piece|] + ([text[|piece|]] + text[|piece| + 1..]);
  }

  // ---------------------------------------------------------------- network forms

  predicate NetworkRoot(path: Path, server: string, share: string, verbatim: bool) {
    path.prefix == Some(if verbatim then VerbatimUnc(server, share) else Unc(server, share)) && path.rooted
  }

  lemma NetworkOf(server: string, s1: char, share: string, s2: char, body: string, verbatim: bool)
    requires Separated(server, verbatim) && Separated(share, verbatim)
    requires IsSeparator(s1, verbatim) && IsSeparator(s2, verbatim)
    requires verbatim || (server != [] && share != [])
    ensures ParseNetwork(server + ([s1] + (share + ([s2] + body))), verbatim).body == body
    ensures NetworkRoot(ParseNetwork(server + ([s1] + (share + ([s2] + body))), verbatim), server, share, verbatim)
  {
    PieceOfFront(server, s1, share + ([s2] + body), verbatim);
    PieceOfFront(share, s2, body, verbatim);
    var rest := [s2] + body;
    assert (share + rest)[|share|..] == rest;
    assert rest[1..] == body;
  }

  /** A rooted network path, taken apart. */
  lemma NetworkParts(text: string, verbatim: bool)
    returns (server: string, s1: char, share: string, s2: char, body: string)
    requires ParseNetwork(text, verbatim).prefix.Some? && ParseNetwork(text, verbatim).rooted
    ensures Separated(server, verbatim) && Separated(share, verbatim)
    ensures IsSeparator(s1, verbatim) && IsSeparator(s2, verbatim)
    ensures verbatim || (server != [] && share != [])
    ensures text == server + ([s1] + (share + ([s2] + body))) && body == ParseNetwork(text, verbatim).body
  {
    server := Piece(text, verbatim);
    var after := AfterPiece(text, verbatim);
    share := Piece(after, verbatim);
    body := ParseNetwork(text, verbatim).body;
    s1 := CutAtPiece(text, verbatim);
    s2 := CutAtPiece(after, verbatim);
    assert after[|share|..] == [s2] + AfterPiece(after, verbatim);
    assert ([s2] + AfterPiece(after, verbatim))[1..] == AfterPiece(after, verbatim);
  }

  function NetworkRootText(server: string, s1: char, share: string, s2: char): string {
    server + ([s1] + (share + [s2]))
  }

  lemma NetworkText(server: string, s1: char, share: string, s2: char, body: string)
    ensures server + ([s1] + (share + ([s2] + body))) == NetworkRootText(server, s1, share, s2) + body
    ensures |NetworkRootText(server, s1, share, s2)| == |server| + |share| + 2
    ensures NetworkRootText(server, s1, share, s2)[|server| + |share| + 1] == s2
  {
    ConcatAssociates(server, [s1] + (share + [s2]), body);
    ConcatAssociates([s1], share + [s2], body);
    ConcatAssociates(share, [s2], body);
  }

  /** The body of a rooted network path is free. */
  lemma NetworkBodyIsFree(text: string, verbatim: bool, other: string) returns (root: string)
    requires ParseNetwork(text, verbatim).prefix.Some? && ParseNetwork(text, verbatim).rooted
    ensures text == root + ParseNetwork(text, verbatim).body
    ensures |root| >= if verbatim then 2 else 4
    ensures IsSeparator(root[|root| - 1], verbatim)
    ensures IsVerbatim(ParseNetwork(text, verbatim).prefix.value) == verbatim
    ensures ParseNetwork(root + other, verbatim) == ParseNetwork(text, verbatim).(body := other)
  {
    hide ParseNetwork, NetworkRootText, Separated;
    var server, s1, share, s2, body := NetworkParts(text, verbatim);
    root := NetworkRootText(server, s1, share, s2);
    NetworkText(server, s1, share, s2, body);
    NetworkText(server, s1, share, s2, other);
    NetworkOf(server, s1, share, s2, body, verbatim);
    NetworkOf(server, s1, share, s2, other, verbatim);
  }

  // ---------------------------------------------------------------- one piece and a separator

  predicate VerbatimDriveStart(rest: string) {
    StartsWithDrive(rest) && (|rest| == 2 || rest[2] == '\\')
  }

  /** After the verbatim marker, which form it is depends on the first piece alone. */
  lemma VerbatimFormByPiece(piece: string, body: string)
    requires Separated(piece, true)
    ensures "UNC\\" <= piece + (['\\'] + body) <==> piece == "UNC"
    ensures VerbatimDriveStart(piece + (['\\'] + body)) <==> |piece| == 2 && StartsWithDrive(piece)
  {
    var rest := piece + (['\\'] + body);
    assert rest[|piece|] == '\\';
    assert forall i :: 0 <= i < |piece| ==> rest[i] == piece[i];
    if piece == "UNC" {
      assert rest[..4] == "UNC\\";
    }
    if "UNC\\" <= rest {
      assert rest[0] == "UNC\\"[0] && rest[1] == "UNC\\"[1] && rest[2] == "UNC\\"[2] && rest[3] == "UNC\\"[3];
      assert |piece| == 3;
      assert piece == ['U', 'N', 'C'];
    }
  }

  // ---------------------------------------------------------------- the six rooted forms

  const MARK := "\\\\?\\"

  lemma MarkedNetwork(network: string)
    ensures ParsePath(MARK + ("UNC\\" + network)) == ParseNetwork(network, true)
  {
    var rest := "UNC\\" + network;
    var text := MARK + rest;
    assert text[..4] == MARK && text[4..] == rest;
    assert rest[..4] == "UNC\\" && rest[4..] == network;
  }

  lemma MarkedPiece(piece: string, body: string)
    requires Separated(piece, true) && piece != "UNC"
    ensures ParsePath(MARK + (piece + (['\\'] + body))) ==
            Path(Some(if |piece| == 2 && StartsWithDrive(piece) then VerbatimDisk(piece[0]) else Verbatim(piece)),
                 true, body)
  {
    var rest := piece + (['\\'] + body);
    var text := MARK + rest;
    assert text[..4] == MARK && text[4..] == rest;
    VerbatimFormByPiece(piece, body);
    PieceOfFront(piece, '\\', body, true);
    assert rest[|piece|..] == ['\\'] + body;
    assert (['\\'] + body)[1..] == body;
  }

  lemma DevicePiece(s0: char, s1: char, s3: char, piece: string, separator: char, body: string)
    requires IsSeparator(s0, false) && IsSeparator(s1, false) && IsSeparator(s3, false)
    requires Separated(piece, false) && IsSeparator(separator, false)
    ensures ParsePath([s0, s1, '.', s3] + (piece + ([separator] + body))) == Path(Some(DeviceNs(piece)), true, body)
  {
    hide ParsePath, Piece;
    var tail := [separator] + body;
    DeviceText(s0, s1, s3, piece + tail);
    PieceOfFront(piece, separator, body, false);
    assert (piece + tail)[|piece|..] == tail && tail[1..] == body;
  }

  lemma DeviceText(s0: char, s1: char, s3: char, rest: string)
    requires IsSeparator(s0, false) && IsSeparator(s1, false) && IsSeparator(s3, false)
    ensures ParsePath([s0, s1, '.', s3] + rest) ==
            Rooted(DeviceNs(Piece(rest, false)), rest[|Piece(rest, false)|..])
  {
    hide Piece;
    var text := [s0, s1, '.', s3] + rest;
    assert text[2] == '.' && MARK[2] == '?';
    assert text[4..] == rest;
    assert text[4 + |Piece(rest, false)|..] == rest[|Piece(rest, false)|..];
  }

  /** Two separators start a network path unless the next two characters say otherwise. */
  predicate PlainNetwork(s0: char, s1: char, c: char, d: char) {
    && IsSeparator(s0, false) && IsSeparator(s1, false)
    && !(s0 == '\\' && s1 == '\\' && c == '?' && d == '\\') && !(c == '.' && IsSeparator(d, false))
  }

  lemma PlainNetworkText(s0: char, s1: char, network: string)
    requires |network| >= 2 && PlainNetwork(s0, s1, network[0], network[1])
    ensures ParsePath([s0, s1] + network) == ParseNetwork(network, false)
  {
    var text := [s0, s1] + network;
    assert text[2..] == network && text[2] == network[0] && text[3] == network[1];
    assert text[0] != MARK[0] || text[1] != MARK[1] || text[2] != MARK[2] || text[3] != MARK[3];
  }

  lemma DriveText(letter: char, separator: char, body: string)
    requires IsLetter(letter) && IsSeparator(separator, false)
    ensures ParsePath([letter, ':', separator] + body) == Path(Some(Disk(letter)), true, body)
  {
    var text := [letter, ':', separator] + body;
    assert text[0] == letter && MARK[0] == '\\';
    assert text[2..] == [separator] + body;
    assert ([separator] + body)[1..] == body;
  }

  // ---------------------------------------------------------------- the body is free

  /** `root` is the text of a path up to and with its root separator: any body can follow it. */
  predicate RootAndBody(text: string, root: string, other: string) {
    var path := ParsePath(text);
    && path.prefix.Some? && text == root + path.body
    && root != [] && IsSeparator(root[|root| - 1], IsVerbatim(path.prefix.value))
    && ParsePath(root + other) == path.(body := other)
  }

  predicate RootedForm(text: string) {
    ParsePath(text).prefix.Some? && ParsePath(text).rooted
  }

  lemma DriveBody(text: string, other: string) returns (root: string)
    requires StartsWithDrive(text) && RootedForm(text)
    ensures RootAndBody(text, root, other)
  {
    assert text[0] != MARK[0];
    root := [text[0], ':', text[2]];
    var body := text[3..];
    assert text == root + body;
    DriveText(text[0], text[2], body);
    DriveText(text[0], text[2], other);
  }

  predicate DeviceStart(text: string) {
    && |text| >= 4 && IsSeparator(text[0], false) && IsSeparator(text[1], false)
    && text[2] == '.' && IsSeparator(text[3], false)
  }

  /** A rooted device path has a separator after the device. */
  lemma DeviceHasSeparator(text: string)
    requires DeviceStart(text) && RootedForm(text)
    ensures |Piece(text[4..], false)| < |text[4..]|
  {
    assert text[2] != MARK[2];
  }

  lemma DeviceBody(text: string, other: string) returns (root: string)
    requires DeviceStart(text) && RootedForm(text)
    ensures RootAndBody(text, root, other)
  {
    hide ParsePath, Piece, AfterPiece;
    DeviceHasSeparator(text);
    var lead, rest := [text[0], text[1], '.', text[3]], text[4..];
    assert text == lead + rest;
    var piece, body := Piece(rest, false), AfterPiece(rest, false);
    var separator := CutAtPiece(rest, false);
    root := lead + (piece + [separator]);
    DevicePiece(text[0], text[1], text[3], piece, separator, body);
    DevicePiece(text[0], text[1], text[3], piece, separator, other);
    PieceText(lead, piece, separator, body);
    PieceText(lead, piece, separator, other);
  }

  lemma PieceText(lead: string, piece: string, separator: char, body: string)
    ensures lead + (piece + ([separator] + body)) == lead + (piece + [separator]) + body
  {
    ConcatAssociates(lead, piece + [separator], body);
    ConcatAssociates(piece, [separator], body);
  }

  lemma MarkedBody(text: string, other: string) returns (root: string)
    requires MARK <= text && !("UNC\\" <= text[4..]) && RootedForm(text)
    ensures RootAndBody(text, root, other)
  {
    var rest := text[4..];
    assert text == MARK + rest;
    MarkedHasSeparator(rest);
    var piece, body := Piece(rest, true), AfterPiece(rest, true);
    var separator := CutAtPiece(rest, true);
    VerbatimFormByPiece(piece, body);
    hide ParsePath, Piece, AfterPiece;
    root := MARK + (piece + [separator]);
    MarkedPiece(piece, body);
    MarkedPiece(piece, other);
    PieceText(MARK, piece, separator, body);
    PieceText(MARK, piece, separator, other);
  }

  /** A rooted verbatim path has a separator after its first piece. */
  lemma MarkedHasSeparator(rest: string)
    requires !("UNC\\" <= rest) && RootedForm(MARK + rest)
    ensures |Piece(rest, true)| < |rest|
  {
    var text := MARK + rest;
    assert text[..4] == MARK && text[4..] == rest;
  }

  lemma MarkedNetworkBody(text: string, other: string) returns (root: string)
    requires MARK <= text && "UNC\\" <= text[4..] && RootedForm(text)
    ensures RootAndBody(text, root, other)
  {
    hide ParsePath, ParseNetwork;
    var network := text[8..];
    TwoFronts(text, MARK, "UNC\\");
    MarkedNetwork(network);
    var inner := NetworkBodyIsFree(network, true, other);
    root := Lead(MARK, "UNC\\", inner, ParseNetwork(network, true).body);
    var same := Lead(MARK, "UNC\\", inner, other);
    MarkedNetwork(inner + other);
  }

  /** A text that starts with one front and then another is made of the two and the rest. */
  lemma TwoFronts(text: string, a: string, b: string)
    requires a <= text && b <= text[|a|..]
    ensures text == a + (b + text[|a| + |b|..])
  {
    assert text == a + text[|a|..];
    assert text[|a|..] == b + text[|a|..][|b|..];
    assert text[|a|..][|b|..] == text[|a| + |b|..];
  }

  lemma Lead(a: string, b: string, inner: string, body: string) returns (root: string)
    ensures root == a + (b + inner) && root + body == a + (b + (inner + body))
    ensures inner != [] ==> root[|root| - 1] == inner[|inner| - 1]
  {
    root := a + (b + inner);
    ConcatAssociates(a, b + inner, body);
    ConcatAssociates(b, inner, body);
  }

  lemma NetworkBody(s0: char, s1: char, network: string, other: string) returns (root: string)
    requires |network| >= 2 && PlainNetwork(s0, s1, network[0], network[1]) && RootedForm([s0, s1] + network)
    ensures RootAndBody([s0, s1] + network, root, other)
  {
    hide ParsePath, ParseNetwork, PlainNetwork;
    PlainNetworkText(s0, s1, network);
    var inner := NetworkBodyIsFree(network, false, other);
    var body := ParseNetwork(network, false).body;
    assert network[0] == (inner + other)[0] && network[1] == (inner + other)[1];
    PlainNetworkText(s0, s1, inner + other);
    root := [s0, s1] + inner;
    ConcatAssociates([s0, s1], inner, body);
    ConcatAssociates([s0, s1], inner, other);
  }

  /** Every rooted path splits into a root and a body, and any text may stand in the body's place. */
  lemma BodyIsFree(text: string, other: string) returns (root: string)
    requires RootedForm(text)
    ensures RootAndBody(text, root, other)
  {
    hide ParsePath, ParseNetwork, RootAndBody, RootedForm, StartsWithDrive;
    if MARK <= text {
      if "UNC\\" <= text[4..] {
        root := MarkedNetworkBody(text, other);
      } else {
        root := MarkedBody(text, other);
      }
    } else if StartsWithDrive(text) {
      root := DriveBody(text, other);
    } else {
      ShortTextIsNoNetwork(text);
      if text[2] == '.' && IsSeparator(text[3], false) {
        root := DeviceBody(text, other);
      } else {
        assert text == [text[0], text[1]] + text[2..];
        root := NetworkBody(text[0], text[1], text[2..], other);
      }
    }
  }

  lemma ShortTextIsNoNetwork(text: string)
    requires RootedForm(text) && !(MARK <= text) && !StartsWithDrive(text)
    ensures |text| >= 4 && IsSeparator(text[0], false) && IsSeparator(text[1], false)
    ensures !(text[0] == '\\' && text[1] == '\\' && text[2] == '?' && text[3] == '\\')
  {
    if |text| < 4 {
      var inner := NetworkBodyIsFree(text[2..], false, []);
    } else {
      assert text[..4] == [text[0], text[1], text[2], text[3]];
    }
  }

  // ---------------------------------------------------------------- detours in the text

  /** Inserting `.\` or `name\..\` in the text of a path, after its root separator or any later one, changes neither
      its normal form nor any containment. */
  lemma DetourInText(before: string, separator: char, after: string, detour: seq<string>, lower: string -> string)
    requires
      var path := ParsePath(before + ([separator] + after));
      && path.prefix.Some? && path.rooted && |after| <= |path.body|
      && IsSeparator(separator, IsVerbatim(path.prefix.value)) && Nameable(detour, IsVerbatim(path.prefix.value))
    ensures Interchangeable(ParsePath(before + ([separator] + Detoured(detour, separator, after))),
                            ParsePath(before + ([separator] + after)), lower)
  {
    hide ParsePath, Interchangeable, Detoured, IsDetour, IsName;
    var text := before + ([separator] + after);
    var path := ParsePath(text);
    var inserted := Detoured(detour, separator, after);
    var root := BodyIsFree(text, path.body);
    if |after| == |path.body| {
      SameCut(before + [separator], after, root, path.body);
      AtRoot(text, before, separator, after, inserted);
      DetourAfterRoot(path, detour, separator, lower);
    } else {
      var middle := before[|root|..];
      LaterCut(before, separator, after, root, path.body);
      Later(text, root, middle, separator, after, inserted);
      assert before == root + middle;
      ConcatAssociates(root, middle, [separator] + inserted);
      DetourInside(path, middle, after, detour, separator, lower);
    }
  }

  lemma SameCut(a: string, b: string, c: string, d: string)
    requires a + b == c + d && |b| == |d|
    ensures a == c && b == d
  {
    assert a == (a + b)[..|a|] == (c + d)[..|c|] == c;
    assert b == (a + b)[|a|..] == (c + d)[|c|..] == d;
  }

  lemma LaterCut(before: string, separator: char, after: string, root: string, body: string)
    requires before + ([separator] + after) == root + body && |after| < |body|
    ensures |root| <= |before| && before == root + before[|root|..]
    ensures body == before[|root|..] + ([separator] + after)
  {
    assert before[..|root|] == root by {
      assert before[..|root|] == (before + ([separator] + after))[..|root|];
      assert (root + body)[..|root|] == root;
    }
    assert body == (root + body)[|root|..];
  }

  lemma AtRoot(text: string, before: string, separator: char, after: string, other: string)
    requires RootedForm(text) && text == before + ([separator] + after) && after == ParsePath(text).body
    ensures ParsePath(before + ([separator] + other)) == ParsePath(text).(body := other)
  {
    var root := BodyIsFree(text, other);
    ConcatAssociates(before, [separator], after);
    ConcatAssociates(before, [separator], other);
    SameCut(before + [separator], after, root, after);
  }

  lemma Later(text: string, root: string, middle: string, separator: char, after: string, other: string)
    requires RootedForm(text) && ParsePath(text).body == middle + ([separator] + after)
    requires text == root + ParsePath(text).body
    ensures ParsePath(root + (middle + ([separator] + other))) ==
            ParsePath(text).(body := middle + ([separator] + other))
  {
    var own := BodyIsFree(text, middle + ([separator] + other));
    SameCut(own, ParsePath(text).body, root, ParsePath(text).body);
  }
}
