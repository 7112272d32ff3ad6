/** app/blog/page.tsx: the tags and the title a blog post card shows. */
module BlogPage {
  import opened Wrappers
  import opened Strings

  /** The fields of a blog post the card reads: `title`, and the optional
      `metadata.title` and `metadata.tags` (one comma-separated string). */
  datatype Post = Post(title: string, metaTitle: Option<string>, tags: Option<string>)

  /** What the card shows: the tag row when there is one, and the title. */
  datatype Card = Card(tagRow: Option<seq<string>>, title: string)

  /** `.map((tag) => tag.trim())` */
  function TrimAll(pieces: seq<string>): (r: seq<string>)
    ensures |r| == |pieces|
    ensures forall i :: 0 <= i < |pieces| ==> r[i] == Trim(pieces[i])
  {
    seq(|pieces|, i requires 0 <= i < |pieces| => Trim(pieces[i]))
  }

  /** `.filter(Boolean)`: the non-empty pieces, in order. */
  function DropEmpty(pieces: seq<string>): (r: seq<string>)
    ensures |r| <= |pieces|
    ensures forall i :: 0 <= i < |r| ==> r[i] != ""
  {
    if pieces == [] then []
    else if pieces[0] == "" then DropEmpty(pieces[1..])
    else [pieces[0]] + DropEmpty(pieces[1..])
  }

  /** What survives the filter is exactly the non-empty pieces. */
  lemma {:induction false} DropEmptyMembers(pieces: seq<string>)
    ensures forall t :: t in DropEmpty(pieces) <==> t in pieces && t != ""
  {
    if pieces != [] {
      DropEmptyMembers(pieces[1..]);
      assert pieces == [pieces[0]] + pieces[1..];
    }
  }

  /** A list of non-empty pieces passes the filter unchanged. */
  lemma {:induction false} DropEmptyKeeps(pieces: seq<string>)
    requires forall i :: 0 <= i < |pieces| ==> pieces[i] != ""
    ensures DropEmpty(pieces) == pieces
  {
    if pieces != [] {
      DropEmptyKeeps(pieces[1..]);
    }
  }

  /** A clean tag: non-empty, without a comma, and with no whitespace at either end. */
  predicate CleanTag(t: string) {
    t != "" && ',' !in t && !IsWhitespace(t[0]) && !IsWhitespace(t[|t| - 1])
  }

  /** `post.metadata.tags ? tags.split(',').map(trim).filter(Boolean) : []` */
  function Tags(tags: Option<string>): (r: seq<string>)
    ensures !Truthy(tags) ==> r == []
  {
    if Truthy(tags) then DropEmpty(TrimAll(Split(tags.value, ','))) else []
  }

  /** Trimming a piece keeps a slice of it, so it brings no comma in. */
  lemma TrimKeepsOut(s: string, c: char)
    requires c !in s
    ensures c !in Trim(s)
  {
    var t := TrimStart(s);
    TrimStartSpec(s);
    TrimEndSpec(t);
    forall k | 0 <= k < |t| ensures t[k] != c {
      assert t[k] == s[|s| - |t| + k];
    }
    var r := TrimEnd(t);
    forall k | 0 <= k < |r| ensures r[k] != c {
      assert r[k] == t[k];
    }
  }

  /** Every tag is clean. */
  lemma TagsAreClean(tags: Option<string>)
    ensures forall t :: t in Tags(tags) ==> CleanTag(t)
  {
    if Truthy(tags) {
      var pieces := Split(tags.value, ',');
      var trimmed := TrimAll(pieces);
      DropEmptyMembers(trimmed);
      forall t | t in Tags(tags) ensures CleanTag(t) {
        assert t in trimmed && t != "";
        var i :| 0 <= i < |trimmed| && trimmed[i] == t;
        TrimSpec(pieces[i]);
        TrimKeepsOut(pieces[i], ',');
      }
    }
  }

  /** A clean string is its own trim. */
  lemma TrimClean(s: string)
    requires s != [] && !IsWhitespace(s[0]) && !IsWhitespace(s[|s| - 1])
    ensures Trim(s) == s
  {
    assert TrimStart(s) == s;
    assert TrimEnd(s) == s;
  }

  /** Clean tags are left as they are by the trimming step. */
  lemma TrimAllClean(ts: seq<string>)
    requires forall i :: 0 <= i < |ts| ==> CleanTag(ts[i])
    ensures TrimAll(ts) == ts
  {
    forall i | 0 <= i < |ts| ensures TrimAll(ts)[i] == ts[i] {
      TrimClean(ts[i]);
    }
  }

  /** Joining pieces whose first is non-empty gives a non-empty string. */
  lemma JoinNonEmpty(ts: seq<string>, sep: char)
    requires ts != [] && ts[0] != ""
    ensures Join(ts, sep) != ""
  {
  }

  /** The tags come out in the order they were written: joining clean tags with commas
      and parsing the result gives the same tags back. */
  lemma TagsRoundTrip(ts: seq<string>)
    requires ts != []
    requires forall i :: 0 <= i < |ts| ==> CleanTag(ts[i])
    ensures Tags(Some(Join(ts, ','))) == ts
  {
    assert CleanTag(ts[0]);
    JoinNonEmpty(ts, ',');
    SplitJoin(ts, ',');
    TrimAllClean(ts);
    DropEmptyKeeps(ts);
  }

  /** `tags.slice(0, 3)`: the tags shown on the card. */
  function ShownTags(tags: seq<string>): (r: seq<string>)
    ensures |r| == if |tags| < 3 then |tags| else 3
    ensures r == tags[..|r|]
  {
    if |tags| < 3 then tags else tags[..3]
  }

  /** `BlogPostCard({ post })`: the tag row appears only when there is at least one tag,
      and shows the first three; the title is `metadata.title || post.title`. */
  function CardFor(post: Post): (c: Card)
    ensures c.tagRow.Some? <==> Tags(post.tags) != []
    ensures c.tagRow.Some? ==> c.tagRow.value == ShownTags(Tags(post.tags))
    ensures Truthy(post.metaTitle) ==> c.title == post.metaTitle.value
    ensures !Truthy(post.metaTitle) ==> c.title == post.title
  {
    var tags := Tags(post.tags);
    var title := if Truthy(post.metaTitle) then post.metaTitle.value else post.title;
    Card(if |tags| > 0 then Some(ShownTags(tags)) else None, title)
  }

  /** A card shows at most three tags, each of them clean and one of the post's tags. */
  lemma ShownTagsAreTags(post: Post)
    ensures var c := CardFor(post);
      c.tagRow.Some? ==>
        && 1 <= |c.tagRow.value| <= 3
        && forall t :: t in c.tagRow.value ==> t in Tags(post.tags) && CleanTag(t)
  {
    TagsAreClean(post.tags);
  }
}
