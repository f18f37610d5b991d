/**
 * The home page's data handling: seeding the all-boards query from the
 * snapshot kept in `localStorage`, and turning the boards into the props of
 * the boards display.
 */
module IndexPage {
  import opened Wrappers
  import opened Js
  import opened ServerUtils

  /**
   * What `JSON.parse` makes of the stored snapshot, as far as `initialData`
   * can tell the values apart.
   */
  datatype Parsed =
    | InvalidJson                              // malformed text: `JSON.parse` throws
    | NullValue                                // `null`: reading `forEach` throws
    | WithoutForEach                           // a number, string, boolean or object with a falsy `forEach`
    | UncallableForEach                        // an object whose `forEach` is truthy but not a function
    | BoardList(boards: array<ServerBoardData>)

  /** What `initialData` does: nothing (`undefined`), a seed, or it throws. */
  datatype Seed = NoSeed | Seeded(boards: array<ServerBoardData>) | Throws(error: JsError)

  /** The values on which `initialData` throws instead of answering. */
  predicate ThrowsOnParse(parsed: Parsed) {
    parsed.InvalidJson? || parsed.NullValue? || parsed.UncallableForEach?
  }

  /** The boards with every update badge cleared. */
  function WithoutUpdates(boards: seq<ServerBoardData>): (r: seq<ServerBoardData>)
    ensures |r| == |boards|
    ensures forall i | 0 <= i < |r| :: !r[i].has_updates
    ensures forall i | 0 <= i < |r| :: r[i].(has_updates := boards[i].has_updates) == boards[i]
  {
    if |boards| == 0 then [] else [boards[0].(has_updates := false)] + WithoutUpdates(boards[1..])
  }

  /** Clearing the badges twice is the same as clearing them once. */
  lemma WithoutUpdatesIdempotent(boards: seq<ServerBoardData>)
    ensures WithoutUpdates(WithoutUpdates(boards)) == WithoutUpdates(boards)
  {
    var once := WithoutUpdates(boards);
    assert forall i | 0 <= i < |once| :: once[i].(has_updates := false) == once[i];
  }

  /** `boardData.forEach((board) => (board.has_updates = false))`. */
  method ClearHasUpdates(boards: array<ServerBoardData>)
    modifies boards
    ensures boards[..] == WithoutUpdates(old(boards[..]))
  {
    for i := 0 to boards.Length
      invariant forall k | 0 <= k < i :: boards[k] == old(boards[k]).(has_updates := false)
      invariant forall k | i <= k < boards.Length :: boards[k] == old(boards[k])
    {
      boards[i] := boards[i].(has_updates := false);
    }
    ghost var cleared := WithoutUpdates(old(boards[..]));
    assert forall k | 0 <= k < boards.Length :: cleared[k] == old(boards[k]).(has_updates := false);
  }

  /**
   * `initialData`: no seed without `localStorage` or a stored snapshot, or when
   * the parsed value has no `forEach`; a throw on malformed text, on `null`
   * and on a `forEach` that cannot be called; otherwise the stored boards
   * themselves, each with `has_updates` cleared in place.
   */
  method InitialData(storage: Option<map<string, string>>, key: string, parsed: Parsed) returns (r: Seed)
    modifies if parsed.BoardList? then {parsed.boards} else {}
    ensures !Truthy(GetItem(storage, key)) ==> r == NoSeed
    ensures Truthy(GetItem(storage, key)) && ThrowsOnParse(parsed) ==> r.Throws?
    ensures Truthy(GetItem(storage, key)) && parsed.InvalidJson? ==> r.error.SyntaxError?
    ensures Truthy(GetItem(storage, key)) && (parsed.NullValue? || parsed.UncallableForEach?) ==>
      r.error.TypeError?
    ensures Truthy(GetItem(storage, key)) && parsed.WithoutForEach? ==> r == NoSeed
    ensures Truthy(GetItem(storage, key)) && parsed.BoardList? ==>
      r == Seeded(parsed.boards) && parsed.boards[..] == WithoutUpdates(old(parsed.boards[..]))
    ensures !Truthy(GetItem(storage, key)) && parsed.BoardList? ==>
      parsed.boards[..] == old(parsed.boards[..])
  {
    if storage.None? {
      return NoSeed;
    }
    var data := GetItem(storage, key);
    if !Truthy(data) {
      return NoSeed;
    }
    match parsed
    case InvalidJson =>
      return Throws(SyntaxError("JSON.parse"));
    case NullValue =>
      return Throws(TypeError("boardData is null"));
    case WithoutForEach =>
      return NoSeed;
    case UncallableForEach =>
      return Throws(TypeError("boardData.forEach is not a function"));
    case BoardList(boards) =>
      ClearHasUpdates(boards);
      return Seeded(boards);
  }

  // ---------------------------------------------------------------------------
  // The boards display

  /**
   * `createLinkTo({ urlPattern: BOARD_URL_PATTERN, url })`; utils/link-utils
   * is not part of this model, so the link is kept as the url it is built from.
   */
  datatype BoardLink = BoardLink(url: string)

  datatype DisplayBoard = DisplayBoard(
    slug: string,
    avatar: Option<string>,
    description: Option<string>,
    color: Option<string>,
    updates: bool,
    link: BoardLink)

  /** `slug.replace("_", " ")`: only the first underscore becomes a space. */
  function DisplaySlug(slug: string): (r: string)
    ensures |r| == |slug|
    ensures '_' !in slug ==> r == slug
  {
    ReplaceFirst(slug, '_', ' ')
  }

  /** `` `/!${slug.replace(" ", "_")}` ``: only the first space becomes an underscore. */
  function BoardUrl(slug: string): (r: string)
    ensures |r| == |slug| + 2 && r[..2] == "/!"
    ensures ' ' in slug ==>
      r == "/!" + slug[..IndexOf(slug, ' ')] + "_" + slug[IndexOf(slug, ' ') + 1..]
  {
    "/!" + ReplaceFirst(slug, ' ', '_')
  }

  function ToDisplay(b: ServerBoardData): (d: DisplayBoard)
    ensures d.avatar == b.avatarUrl && d.description == b.tagline && d.updates == b.has_updates
    ensures d.color == (if b.settings.Some? then b.settings.value.accentColor else None)
    ensures d.slug == DisplaySlug(b.slug) && d.link == BoardLink(BoardUrl(b.slug))
  {
    DisplayBoard(
      slug := DisplaySlug(b.slug),
      avatar := b.avatarUrl,
      description := b.tagline,
      color := if b.settings.Some? then b.settings.value.accentColor else None,
      updates := b.has_updates,
      link := BoardLink(BoardUrl(b.slug)))
  }

  /** `boards.map(...)`. */
  function DisplayAll(boards: seq<ServerBoardData>): (r: seq<DisplayBoard>)
    ensures |r| == |boards|
    ensures forall i | 0 <= i < |r| :: r[i] == ToDisplay(boards[i])
  {
    if |boards| == 0 then [] else [ToDisplay(boards[0])] + DisplayAll(boards[1..])
  }

  /** `(allBoards || []).map(...)`: the boards in order, or none before any data. */
  function DisplayBoards(allBoards: Option<seq<ServerBoardData>>): (r: seq<DisplayBoard>)
    ensures allBoards.None? ==> r == []
    ensures allBoards.Some? ==> r == DisplayAll(allBoards.value)
  {
    if allBoards.None? then [] else DisplayAll(allBoards.value)
  }

  /** A seeded list shows no update badge on any board. */
  lemma SeededBoardsShowNoUpdates(boards: seq<ServerBoardData>)
    ensures var shown := DisplayBoards(Some(WithoutUpdates(boards)));
      |shown| == |boards| && forall i | 0 <= i < |shown| :: !shown[i].updates
  {
  }

  /** The displayed slug differs from the stored one at most at its first underscore, which is a space. */
  lemma DisplaySlugChangesFirstUnderscoreOnly(slug: string)
    ensures |DisplaySlug(slug)| == |slug|
    ensures '_' !in slug ==> DisplaySlug(slug) == slug
    ensures '_' in slug ==>
      var i := IndexOf(slug, '_');
      && DisplaySlug(slug)[i] == ' '
      && forall j | 0 <= j < |slug| && j != i :: DisplaySlug(slug)[j] == slug[j]
  {
    if '_' in slug {
      var i := IndexOf(slug, '_');
      var d := DisplaySlug(slug);
      assert d == slug[..i] + [' '] + slug[i + 1..];
      forall j | 0 <= j < |slug| && j != i ensures d[j] == slug[j] {
        if j < i {
          assert d[j] == slug[..i][j];
        } else {
          assert d[j] == slug[i + 1..][j - i - 1];
        }
      }
    }
  }

  /** Underscores after the first stay: `a_b_c` shows as `a b_c`. */
  lemma OnlyFirstUnderscoreReplaced(prefix: string, rest: string)
    requires '_' !in prefix
    ensures DisplaySlug(prefix + "_" + rest) == prefix + " " + rest
  {
    ReplaceFirstAfterPrefix(prefix, '_', ' ', rest);
  }

  /** Spaces after the first stay in the link: `a b c` links to `/!a_b c`. */
  lemma OnlyFirstSpaceReplaced(prefix: string, rest: string)
    requires ' ' !in prefix
    ensures BoardUrl(prefix + " " + rest) == "/!" + prefix + "_" + rest
  {
    ReplaceFirstAfterPrefix(prefix, ' ', '_', rest);
  }

  /** A slug without spaces links to itself, even when it is shown with a space. */
  lemma LinkKeepsStoredSlug(slug: string)
    requires ' ' !in slug
    ensures BoardUrl(slug) == "/!" + slug
  {
  }

  /** For a slug without spaces, un-replacing the displayed slug gives back the stored one. */
  lemma DisplaySlugRoundTrip(slug: string)
    requires ' ' !in slug
    ensures ReplaceFirst(DisplaySlug(slug), ' ', '_') == slug
  {
    if '_' in slug {
      var i := IndexOf(slug, '_');
      var prefix, rest := slug[..i], slug[i + 1..];
      assert slug == prefix + ['_'] + rest;
      ReplaceFirstAfterPrefix(prefix, '_', ' ', rest);
      assert ' ' !in prefix by {
        assert forall j | 0 <= j < i :: prefix[j] == slug[j];
      }
      ReplaceFirstAfterPrefix(prefix, ' ', '_', rest);
    }
  }
}
