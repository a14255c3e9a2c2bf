/**
 * The menu of `screens/MenuCollection/index.tsx`: six fixed links, each of
 * which opens the category screen with the last path segment of its link as
 * the category name.
 */
module MenuCollection {

  /**
   * `parts` are the pieces of `s` cut at `sep`: there is at least one, none
   * holds `sep`, and the last is the text after the last `sep`.
   */
  predicate PiecesOf(s: string, sep: char, parts: seq<string>)
  {
    |parts| >= 1
    && (forall i, j :: 0 <= i < |parts| && 0 <= j < |parts[i]| ==> parts[i][j] != sep)
    && var last := parts[|parts| - 1];
       |last| <= |s| && last == s[|s| - |last|..] && (|last| < |s| ==> s[|s| - |last| - 1] == sep)
  }

  /** A separator at the end of `s` opens a new, empty last piece. */
  lemma PiecesOfSeparator(s: string, sep: char, p: seq<string>)
    requires s != [] && s[|s| - 1] == sep && PiecesOf(s[..|s| - 1], sep, p)
    ensures PiecesOf(s, sep, p + [""])
  {
    var r := p + [""];
    assert forall i :: 0 <= i < |p| ==> r[i] == p[i];
  }

  /** Any other character at the end of `s` extends the last piece. */
  lemma PiecesOfOther(s: string, sep: char, p: seq<string>)
    requires s != [] && s[|s| - 1] != sep && PiecesOf(s[..|s| - 1], sep, p)
    ensures PiecesOf(s, sep, p[..|p| - 1] + [p[|p| - 1] + [s[|s| - 1]]])
  {
    var init := s[..|s| - 1];
    var c := s[|s| - 1];
    var q := p[|p| - 1];
    var last := q + [c];
    var r := p[..|p| - 1] + [last];
    assert forall i :: 0 <= i < |p| - 1 ==> r[i] == p[i];
    assert sep !in last;
    assert s[|init| - |q|..] == init[|init| - |q|..] + [c];
  }

  /** `s.split(sep)` for a one-character separator: the pieces between separators, in order. */
  function Split(s: string, sep: char): (parts: seq<string>)
    ensures PiecesOf(s, sep, parts)
    decreases |s|
  {
    if s == [] then [""]
    else
      var p := Split(s[..|s| - 1], sep);
      if s[|s| - 1] == sep then
        PiecesOfSeparator(s, sep, p);
        p + [""]
      else
        PiecesOfOther(s, sep, p);
        p[..|p| - 1] + [p[|p| - 1] + [s[|s| - 1]]]
  }

  /** `parts.join(sep)`: the inverse of `Split`. */
  function Join(parts: seq<string>, sep: char): string
    requires |parts| >= 1
  {
    if |parts| == 1 then parts[0] else Join(parts[..|parts| - 1], sep) + [sep] + parts[|parts| - 1]
  }

  /**
   * `link.split('/').pop()`: the split never yields an empty array, so `pop`
   * returns its last piece. That is exactly the text after the last '/': it
   * holds no '/', it is a suffix of the link, and the character before it
   * (if any) is '/'.
   */
  function LastSegment(link: string): (seg: string)
    ensures '/' !in seg
    ensures |seg| <= |link| && seg == link[|link| - |seg|..] && (|seg| < |link| ==> link[|link| - |seg| - 1] == '/')
  {
    var parts := Split(link, '/');
    assert '/' !in parts[|parts| - 1];
    parts[|parts| - 1]
  }

  /** Appending a piece to the list appends the separator and the piece to the joined text. */
  lemma JoinSnoc(parts: seq<string>, x: string, sep: char)
    requires |parts| >= 1
    ensures Join(parts + [x], sep) == Join(parts, sep) + [sep] + x
  {
    assert (parts + [x])[..|parts|] == parts;
  }

  /** Appending a character to the last piece appends it to the joined text. */
  lemma JoinExtendLast(parts: seq<string>, c: char, sep: char)
    requires |parts| >= 1
    ensures Join(parts[..|parts| - 1] + [parts[|parts| - 1] + [c]], sep) == Join(parts, sep) + [c]
  {
    var init := parts[..|parts| - 1];
    var last := parts[|parts| - 1];
    if |parts| > 1 {
      JoinSnoc(init, last + [c], sep);
      JoinSnoc(init, last, sep);
      assert init + [last] == parts;
    }
  }

  /** A separator at the end opens a new, empty last piece. */
  lemma SplitEndsAtSeparator(s: string, sep: char)
    requires s != [] && s[|s| - 1] == sep
    ensures Split(s, sep) == Split(s[..|s| - 1], sep) + [""]
  {
  }

  /** Any other last character extends the last piece. */
  lemma SplitExtendsLastPiece(s: string, sep: char)
    requires s != [] && s[|s| - 1] != sep
    ensures var p := Split(s[..|s| - 1], sep);
      Split(s, sep) == p[..|p| - 1] + [p[|p| - 1] + [s[|s| - 1]]]
  {
  }

  /** Appending the empty string changes nothing. */
  lemma AppendEmpty(s: string)
    ensures s + "" == s
  {
  }

  /** A non-empty string is its prefix followed by its last character. */
  lemma DropLastThenAppend(s: string)
    requires s != []
    ensures s[..|s| - 1] + [s[|s| - 1]] == s
  {
  }

  /** Joining the pieces with the separator gives back the original string. */
  lemma {:induction false} JoinSplit(s: string, sep: char)
    ensures Join(Split(s, sep), sep) == s
    decreases |s|
  {
    if s != [] {
      var init := s[..|s| - 1];
      var c := s[|s| - 1];
      var p := Split(init, sep);
      JoinSplit(init, sep);
      DropLastThenAppend(s);
      if c == sep {
        SplitEndsAtSeparator(s, sep);
        JoinSnoc(p, "", sep);
        AppendEmpty(init + [c]);
      } else {
        SplitExtendsLastPiece(s, sep);
        JoinExtendLast(p, c, sep);
      }
    }
  }

  /** A link without '/' is its own category name. */
  lemma {:induction false} NoSlashIsWhole(link: string)
    requires '/' !in link
    ensures LastSegment(link) == link
  {
  }

  /** A link ending in '/' gives the empty name. */
  lemma TrailingSlashIsEmpty(link: string)
    requires link != [] && link[|link| - 1] == '/'
    ensures LastSegment(link) == ""
  {
  }

  /** The six menu entries, with the link each one opens. */
  const LINKS: seq<(string, string)> := [
    ("Закуски", "/Menu/zakuski"),
    ("Десерты", "/Menu/deserty"),
    ("Горячие блюда", "/Menu/goryachie-blyuda"),
    ("Завтраки", "/Menu/zavtraki"),
    ("Винная карта", "/Menu/vinnaya-karta"),
    ("Барная карта", "/Menu/barnaya-karta")
  ]

  /** The category name an entry passes to the category screen. */
  function CategoryRoute(entry: nat): (name: string)
    requires entry < |LINKS|
    ensures '/' !in name
  {
    LastSegment(LINKS[entry].1)
  }

  /** A '/' at position `i` lies before any suffix that holds no '/'. */
  lemma SlashBeforeSuffix(link: string, i: nat, j: nat)
    requires i < |link| && j <= |link| && link[i] == '/' && '/' !in link[j..]
    ensures i < j
  {
  }

  /** `/Menu/<slug>` gives `<slug>` for any slug without '/'. */
  lemma MenuLinkGivesSlug(slug: string)
    requires '/' !in slug
    ensures LastSegment("/Menu/" + slug) == slug
  {
    var link := "/Menu/" + slug;
    var seg := LastSegment(link);
    var start := |link| - |seg|;
    SlashBeforeSuffix(link, 5, start);
    assert link[|link| - |slug|..] == slug;
  }

  /** An entry whose link is `/Menu/<slug>` opens the category `<slug>`. */
  lemma EntryOpensSlug(entry: nat, slug: string)
    requires entry < |LINKS|
    requires LINKS[entry].1 == "/Menu/" + slug
    requires '/' !in slug
    ensures CategoryRoute(entry) == slug
  {
    MenuLinkGivesSlug(slug);
  }

  /** The category each of the six entries is meant to open, in menu order. */
  const SLUGS: seq<string> := ["zakuski", "deserty", "goryachie-blyuda", "zavtraki", "vinnaya-karta", "barnaya-karta"]

  /** Every link is `/Menu/` followed by its slug, and no slug holds '/'. */
  lemma LinksAreMenuSlugs(entry: nat)
    requires entry < |LINKS|
    ensures LINKS[entry].1 == "/Menu/" + SLUGS[entry] && '/' !in SLUGS[entry]
  {
  }

  /** Each of the six entries opens its own category. */
  lemma SixLinksGiveTheirSlugs()
    ensures forall entry :: 0 <= entry < |LINKS| ==> CategoryRoute(entry) == SLUGS[entry]
  {
    forall entry | 0 <= entry < |LINKS|
      ensures CategoryRoute(entry) == SLUGS[entry]
    {
      LinksAreMenuSlugs(entry);
      EntryOpensSlug(entry, SLUGS[entry]);
    }
  }
}
