/** Post records and the mapping from spreadsheet rows to posts done by
    `fetch_posts_from_sheets`, plus the text `send_post` delivers. */
module Posts {
  import opened Wrappers
  import opened Text

  /** One record of the "Posts" worksheet: column header to cell text. A
      column the sheet does not have is a key the map does not hold. */
  type Row = map<string, string>

  /** The `slides` field: `[]` when the cell is empty, otherwise the JSON
      text of the cell, which the bot decodes with `json.loads`. */
  datatype Slides = NoSlides | SlidesJson(cell: string)

  /** A post. Posts read from the sheet always carry a text; posts read
      from the local JSON file may lack one, hence the `Option`. */
  datatype Post = Post(
    kind: string,
    text: Option<string>,
    media: string,
    options: seq<string>,
    datetime: string,
    slides: Slides)

  /** `row.get(key, default)`. */
  function Get(row: Row, key: string, default: string): string
  {
    if key in row then row[key] else default
  }

  /** `row.get("text")` is truthy: the cell exists and is not empty. */
  predicate HasText(row: Row)
  {
    "text" in row && row["text"] != ""
  }

  /** The post built from one row that has a text. */
  function ToPost(row: Row): (p: Post)
    requires HasText(row)
    ensures p.text == Some(row["text"])
    ensures p.kind == if "type" in row then row["type"] else "text"
    ensures Join(p.options, ';') == Get(row, "options", "")
    ensures forall i :: 0 <= i < |p.options| ==> ';' !in p.options[i]
    ensures Get(row, "options", "") == "" ==> p.options == []
    ensures Get(row, "options", "") != "" ==> |p.options| >= 1
    ensures p.media == Get(row, "media", "") && p.datetime == Get(row, "datetime", "")
    ensures p.slides.NoSlides? <==> Get(row, "slides", "") == ""
    ensures p.slides.SlidesJson? ==> p.slides.cell == row["slides"]
  {
    var options := Get(row, "options", "");
    JoinSplit(options, ';');
    Post(
      kind := Get(row, "type", "text"),
      text := Some(row["text"]),
      media := Get(row, "media", ""),
      options := if options != "" then Split(options, ';') else [],
      datetime := Get(row, "datetime", ""),
      slides := if Get(row, "slides", "") != "" then SlidesJson(row["slides"]) else NoSlides)
  }

  /** The posts built from `rows`, in row order, skipping rows without text. */
  function NormalizeRows(rows: seq<Row>): (posts: seq<Post>)
    ensures |posts| <= |rows|
    ensures forall j :: 0 <= j < |posts| ==> posts[j].text.Some? && posts[j].text.value != ""
    decreases |rows|
  {
    if |rows| == 0 then []
    else
      var last := rows[|rows| - 1];
      NormalizeRows(rows[..|rows| - 1]) + if HasText(last) then [ToPost(last)] else []
  }

  /** How many rows have a text. */
  function CountKept(rows: seq<Row>): nat
    decreases |rows|
  {
    if |rows| == 0 then 0
    else CountKept(rows[..|rows| - 1]) + if HasText(rows[|rows| - 1]) then 1 else 0
  }

  /** One post per row with a text, and no other. */
  lemma {:induction false} NormalizeLength(rows: seq<Row>)
    ensures |NormalizeRows(rows)| == CountKept(rows)
    decreases |rows|
  {
    if |rows| > 0 {
      NormalizeLength(rows[..|rows| - 1]);
    }
  }

  /** A row with a text becomes the post at the position given by the number
      of rows with a text before it: rows keep their order. */
  lemma {:induction false} NormalizeKeeps(rows: seq<Row>, i: nat)
    requires i < |rows| && HasText(rows[i])
    ensures CountKept(rows[..i]) < |NormalizeRows(rows)|
    ensures NormalizeRows(rows)[CountKept(rows[..i])] == ToPost(rows[i])
    decreases |rows|
  {
    var init := rows[..|rows| - 1];
    NormalizeLength(init);
    if i == |rows| - 1 {
      assert rows[..i] == init;
    } else {
      NormalizeKeeps(init, i);
      assert init[..i] == rows[..i];
    }
  }

  /** Every post comes from a row with a text, the one with exactly as many
      rows with a text before it as the post's position. */
  lemma {:induction false} NormalizeSource(rows: seq<Row>, j: nat)
    requires j < |NormalizeRows(rows)|
    ensures exists i ::
              && 0 <= i < |rows| && HasText(rows[i])
              && CountKept(rows[..i]) == j && NormalizeRows(rows)[j] == ToPost(rows[i])
    decreases |rows|
  {
    var init := rows[..|rows| - 1];
    var last := rows[|rows| - 1];
    var head := NormalizeRows(init);
    var out := NormalizeRows(rows);
    assert out == head + if HasText(last) then [ToPost(last)] else [];
    NormalizeLength(init);
    if j < |head| {
      NormalizeSource(init, j);
      var i :| 0 <= i < |init| && HasText(init[i])
        && CountKept(init[..i]) == j && head[j] == ToPost(init[i]);
      assert init[..i] == rows[..i] && init[i] == rows[i];
      assert out[j] == head[j];
      assert 0 <= i < |rows| && HasText(rows[i]) && CountKept(rows[..i]) == j && out[j] == ToPost(rows[i]);
    } else {
      var i := |rows| - 1;
      assert HasText(last) && out[j] == ToPost(last);
      assert rows[..i] == init;
      assert 0 <= i < |rows| && HasText(rows[i]) && CountKept(rows[..i]) == j && out[j] == ToPost(rows[i]);
    }
  }

  /** Where the sheet rows come from: `get_gs_client` gives no client (no
      spreadsheet id or no credentials file), the gspread calls raise, or
      the worksheet's records arrive. */
  datatype SheetSource = NotConfigured | Unavailable | Records(rows: seq<Row>)

  /** The exception a failing gspread call raises. */
  datatype FetchError = SheetError

  /** The posts the sheet provides, when fetching does not raise. */
  function SheetPosts(source: SheetSource): seq<Post>
  {
    if source.Records? then NormalizeRows(source.rows) else []
  }

  /** `fetch_posts_from_sheets`: the row loop that builds the post list. */
  method FetchPostsFromSheet(source: SheetSource) returns (r: Result<seq<Post>, FetchError>)
    ensures source.Unavailable? <==> r.Failure?
    ensures r.Success? ==> r.value == SheetPosts(source)
  {
    if source.NotConfigured? {
      return Success([]);
    }
    if source.Unavailable? {
      return Failure(SheetError);
    }
    var rows := source.rows;
    var posts: seq<Post> := [];
    for i := 0 to |rows|
      invariant posts == NormalizeRows(rows[..i])
    {
      var row := rows[i];
      assert rows[..i + 1][..i] == rows[..i];
      if !HasText(row) {
        continue;
      }
      posts := posts + [ToPost(row)];
    }
    assert rows[..|rows|] == rows;
    return Success(posts);
  }

  /** `post.get("text", "")`: the message body `send_post` sends. */
  function MessageText(p: Post): (t: string)
    ensures p.text.Some? ==> t == p.text.value
    ensures p.text.None? ==> t == ""
  {
    if p.text.Some? then p.text.value else ""
  }

  /** Every post that came from the sheet is sent with its row's non-empty
      text: none of them goes out as an empty message. */
  lemma {:induction false} SheetMessagesNotEmpty(rows: seq<Row>, j: nat)
    requires j < |NormalizeRows(rows)|
    ensures MessageText(NormalizeRows(rows)[j]) != ""
    ensures exists i ::
              && 0 <= i < |rows| && HasText(rows[i])
              && MessageText(NormalizeRows(rows)[j]) == rows[i]["text"]
  {
    NormalizeSource(rows, j);
  }
}
