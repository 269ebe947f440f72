/**
 * `ListUploadSessionsHandler.do_process`: the datastore filter is required,
 * the optional status filter is a comma-separated list, and limit and offset
 * default to 50 and 0. The listing itself is the store's `list_by_datastore`,
 * a parameter here.
 */
module ListUploadSessionsHandler {
  import opened Results
  import opened PyText
  import opened UploadRecords

  const DefaultLimit := 50
  const DefaultOffset := 0

  /** A status name as it leaves the parser: non-empty, no surrounding whitespace, no comma. */
  predicate CleanStatus(s: string)
  {
    s != [] && !IsSpace(s[0]) && !IsSpace(s[|s| - 1]) && ',' !in s
  }

  lemma StripKeepsOutComma(s: string)
    requires ',' !in s
    ensures ',' !in Strip(s)
  {
    var k := StripOffset(s);
    var t := Strip(s);
    forall i | 0 <= i < |t|
      ensures t[i] != ','
    {
      assert t[i] == s[k + i];
    }
  }

  /** What one piece contributes to the comprehension: its strip, when that is non-empty. */
  function Kept(p: string): (r: seq<string>)
    ensures |r| <= 1
  {
    var t := Strip(p);
    if t != [] then [t] else []
  }

  /** The contributions `f(x)` of the pieces, concatenated in order: a comprehension with a filter. */
  function FlatMap(f: string -> seq<string>, xs: seq<string>): seq<string>
  {
    if xs == [] then [] else f(xs[0]) + FlatMap(f, xs[1..])
  }

  /** The comprehension works piece by piece: the result for a concatenation is the concatenated results. */
  lemma {:induction false} FlatMapAppend(f: string -> seq<string>, xs: seq<string>, ys: seq<string>)
    ensures FlatMap(f, xs + ys) == FlatMap(f, xs) + FlatMap(f, ys)
  {
    if xs == [] {
      assert xs + ys == ys;
    } else {
      var zs := xs + ys;
      assert zs[0] == xs[0] && zs[1..] == xs[1..] + ys;
      FlatMapAppend(f, xs[1..], ys);
      assert FlatMap(f, zs) == f(xs[0]) + (FlatMap(f, xs[1..]) + FlatMap(f, ys));
    }
  }

  /** When each piece contributes at most one item, no more items come out than pieces go in. */
  lemma {:induction false} FlatMapAtMostOne(f: string -> seq<string>, xs: seq<string>)
    requires forall x :: |f(x)| <= 1
    ensures |FlatMap(f, xs)| <= |xs|
  {
    if xs != [] {
      FlatMapAtMostOne(f, xs[1..]);
    }
  }

  /** Every item that comes out satisfies `ok` when every contribution of a piece does. */
  lemma {:induction false} FlatMapAll(f: string -> seq<string>, xs: seq<string>, ok: string -> bool)
    requires forall j, i :: 0 <= j < |xs| && 0 <= i < |f(xs[j])| ==> ok(f(xs[j])[i])
    ensures forall i :: 0 <= i < |FlatMap(f, xs)| ==> ok(FlatMap(f, xs)[i])
  {
    if xs != [] {
      var head, tail := f(xs[0]), FlatMap(f, xs[1..]);
      assert forall j, i :: 0 <= j < |xs[1..]| && 0 <= i < |f(xs[1..][j])| ==> ok(f(xs[1..][j])[i]) by {
        forall j, i | 0 <= j < |xs[1..]| && 0 <= i < |f(xs[1..][j])|
          ensures ok(f(xs[1..][j])[i])
        {
          assert xs[1..][j] == xs[j + 1];
        }
      }
      FlatMapAll(f, xs[1..], ok);
      var r := FlatMap(f, xs);
      assert r == head + tail;
      forall i | 0 <= i < |r|
        ensures ok(r[i])
      {
        if i < |head| {
          assert r[i] == head[i];
        } else {
          assert r[i] == tail[i - |head|];
        }
      }
    }
  }

  /** Pieces that each contribute exactly themselves come out unchanged. */
  lemma {:induction false} FlatMapOfSelf(f: string -> seq<string>, xs: seq<string>)
    requires forall i :: 0 <= i < |xs| ==> f(xs[i]) == [xs[i]]
    ensures FlatMap(f, xs) == xs
  {
    if xs != [] {
      assert forall i :: 0 <= i < |xs[1..]| ==> xs[1..][i] == xs[i + 1];
      FlatMapOfSelf(f, xs[1..]);
      assert xs == [xs[0]] + xs[1..];
    }
  }

  /** Three pieces: their contributions in order. */
  lemma FlatMapOfThree(f: string -> seq<string>, a: string, b: string, c: string)
    ensures FlatMap(f, [a, b, c]) == f(a) + f(b) + f(c)
  {
    assert [a, b, c] == [a] + [b] + [c];
    FlatMapAppend(f, [a] + [b], [c]);
    FlatMapAppend(f, [a], [b]);
    assert [a][1..] == [] && [b][1..] == [] && [c][1..] == [];
  }

  /** `[p.strip() for p in pieces if p.strip()]`. */
  function StrippedPieces(pieces: seq<string>): (r: seq<string>)
    ensures |r| <= |pieces|
  {
    FlatMapAtMostOne(Kept, pieces);
    FlatMap(Kept, pieces)
  }

  /** Every kept piece of comma-free pieces is non-empty, unpadded and comma-free. */
  lemma StrippedPiecesAreClean(pieces: seq<string>)
    requires forall j :: 0 <= j < |pieces| ==> ',' !in pieces[j]
    ensures forall i :: 0 <= i < |StrippedPieces(pieces)| ==> CleanStatus(StrippedPieces(pieces)[i])
  {
    forall j, i | 0 <= j < |pieces| && 0 <= i < |Kept(pieces[j])|
      ensures CleanStatus(Kept(pieces[j])[i])
    {
      StripKeepsOutComma(pieces[j]);
    }
    FlatMapAll(Kept, pieces, CleanStatus);
  }

  /** The pieces of a concatenation are the concatenated pieces. */
  lemma StrippedPiecesAppend(xs: seq<string>, ys: seq<string>)
    ensures StrippedPieces(xs + ys) == StrippedPieces(xs) + StrippedPieces(ys)
  {
    FlatMapAppend(Kept, xs, ys);
  }

  /** One piece is kept as its strip exactly when that strip is non-empty. */
  lemma StrippedPiecesOfOne(p: string)
    ensures StrippedPieces([p]) == if Strip(p) != [] then [Strip(p)] else []
  {
    assert [p][1..] == [];
    assert FlatMap(Kept, [p]) == Kept(p) + [];
    assert Kept(p) + [] == Kept(p);
  }

  /**
   * Lines 22-27: None when the parameter is absent or empty, otherwise the
   * stripped non-blank pieces between commas.
   */
  function ParseStatuses(q: Option<string>): (r: Option<seq<string>>)
    ensures r.None? <==> q.None? || q.value == ""
    ensures r.Some? ==> forall i :: 0 <= i < |r.value| ==> CleanStatus(r.value[i])
  {
    if q.None? || q.value == "" then None
    else
      StrippedPiecesAreClean(Split(q.value, ','));
      Some(StrippedPieces(Split(q.value, ',')))
  }

  /** Pieces that are already clean pass through unchanged. */
  lemma StrippedPiecesOfClean(xs: seq<string>)
    requires forall i :: 0 <= i < |xs| ==> CleanStatus(xs[i])
    ensures StrippedPieces(xs) == xs
  {
    forall i | 0 <= i < |xs|
      ensures Kept(xs[i]) == [xs[i]]
    {
      StripKeeps(xs[i]);
    }
    FlatMapOfSelf(Kept, xs);
  }

  /** The piece list a comma-joined list of clean names gives back: exactly that list. */
  lemma ParseStatusesOfJoin(xs: seq<string>)
    requires xs != []
    requires forall i :: 0 <= i < |xs| ==> CleanStatus(xs[i])
    ensures ParseStatuses(Some(Join(xs, ','))) == Some(xs)
  {
    SplitJoin(xs, ',');
    StrippedPiecesOfClean(xs);
    JoinStartsWith(xs, ',');
  }

  /**
   * A comma-join of comma-free pieces, padded or not, parses to the strips
   * of its non-blank pieces, in order.
   */
  lemma ParseStatusesOfPieces(xs: seq<string>)
    requires xs != []
    requires forall i :: 0 <= i < |xs| ==> ',' !in xs[i]
    requires Join(xs, ',') != ""
    ensures ParseStatuses(Some(Join(xs, ','))) == Some(StrippedPieces(xs))
  {
    SplitJoin(xs, ',');
  }

  /** Three pieces joined: the pieces with a separator between each pair. */
  lemma JoinOfThree(a: string, b: string, c: string, sep: char)
    ensures Join([a, b, c], sep) == a + [sep] + b + [sep] + c
  {
    assert [a, b, c][1..] == [b, c] && [b, c][1..] == [c];
    assert Join([b, c], sep) == b + [sep] + c;
    assert a + [sep] + (b + [sep] + c) == a + [sep] + b + [sep] + c;
  }

  /** Whitespace holds no comma. */
  lemma SpaceHoldsNoComma(s: string)
    requires AllSpace(s)
    ensures ',' !in s
  {
    forall i | 0 <= i < |s|
      ensures s[i] != ','
    {
      assert IsSpace(s[i]);
    }
  }

  /**
   * Two status names, each padded with whitespace, around a blank piece:
   * the padding is stripped, the blank piece is dropped, and the order is kept.
   */
  lemma ParseStatusesOfPaddedPair(x: string, z: string, p1: string, p2: string, blank: string, p3: string, p4: string)
    requires CleanStatus(x) && CleanStatus(z)
    requires AllSpace(p1) && AllSpace(p2) && AllSpace(blank) && AllSpace(p3) && AllSpace(p4)
    ensures ParseStatuses(Some(p1 + x + p2 + [','] + blank + [','] + p3 + z + p4)) == Some([x, z])
  {
    var a, c := p1 + x + p2, p3 + z + p4;
    SpaceHoldsNoComma(p1);
    SpaceHoldsNoComma(p2);
    SpaceHoldsNoComma(blank);
    SpaceHoldsNoComma(p3);
    SpaceHoldsNoComma(p4);
    JoinOfThree(a, blank, c, ',');
    assert a + [','] + blank + [','] + c == p1 + x + p2 + [','] + blank + [','] + p3 + z + p4;
    ParseStatusesOfPieces([a, blank, c]);
    FlatMapOfThree(Kept, a, blank, c);
    StripOfSurrounded(p1, x, p2);
    StripEmptyIffAllSpace(blank);
    StripOfSurrounded(p3, z, p4);
    assert Kept(a) + Kept(blank) + Kept(c) == [x, z];
  }

  /** `" uploaded , ,ready "` selects uploaded and ready. */
  lemma PaddedStatusesAreStripped()
    ensures ParseStatuses(Some(" uploaded , ,ready ")) == Some(["uploaded", "ready"])
  {
    var q := " " + "uploaded" + " " + [','] + " " + [','] + "" + "ready" + " ";
    assert q == " uploaded , ,ready ";
    ParseStatusesOfPaddedPair("uploaded", "ready", " ", " ", " ", "", " ");
  }

  lemma JoinStartsWith(xs: seq<string>, sep: char)
    requires xs != []
    ensures HasPrefix(Join(xs, sep), xs[0])
  {
  }

  /** A parameter that is only commas and blanks filters nothing by name: it selects the empty list, not None. */
  lemma BlankStatusesGiveEmptyList()
    ensures ParseStatuses(Some(",,")) == Some([])
    ensures ParseStatuses(Some(" ")) == Some([])
  {
    assert Split(",,", ',') == ["", "", ""];
    SplitWithoutSeparator(" ", ',');
    assert AllSpace(" ");
    StripEmptyIffAllSpace(" ");
  }

  /** `int(qp.get(key, default))`: the default when absent, else Python's int of the text; None when int raises. */
  function IntParam(qp: map<string, string>, key: string, default: int): Option<int>
  {
    if key in qp then ParseInt(qp[key]) else Some(default)
  }

  /** The response data of line 36. */
  datatype ListPage = ListPage(items: seq<UploadSession>, count: int, limit: int, offset: int)

  /**
   * `do_process`. `listByDatastore(datastoreId, statuses, limit, offset)`
   * is the store's query.
   */
  function ListUploadSessions(qp: map<string, string>,
                              listByDatastore: (string, Option<seq<string>>, int, int) -> seq<UploadSession>)
    : (r: Result<ListPage, HttpFailure>)
    ensures r == Err(HttpError(400, "datastore_id required")) <==> Lookup(qp, "datastore_id") in {None, Some("")}
    ensures r.Err? ==> r.error == HttpError(400, "datastore_id required") || r.error == Unhandled("ValueError")
    ensures r.Ok? <==>
      && Lookup(qp, "datastore_id") !in {None, Some("")}
      && IntParam(qp, "limit", DefaultLimit).Some?
      && IntParam(qp, "offset", DefaultOffset).Some?
    ensures r.Ok? ==>
      && r.value.count == |r.value.items|
      && Some(r.value.limit) == IntParam(qp, "limit", DefaultLimit)
      && Some(r.value.offset) == IntParam(qp, "offset", DefaultOffset)
      && r.value.items == listByDatastore(qp["datastore_id"], ParseStatuses(Lookup(qp, "statuses")), r.value.limit, r.value.offset)
  {
    var datastoreId := Lookup(qp, "datastore_id");
    if datastoreId.None? || datastoreId.value == "" then Err(HttpError(400, "datastore_id required"))
    else
      var statuses := ParseStatuses(Lookup(qp, "statuses"));
      match IntParam(qp, "limit", DefaultLimit)
      case None => Err(Unhandled("ValueError"))
      case Some(limit) =>
        match IntParam(qp, "offset", DefaultOffset)
        case None => Err(Unhandled("ValueError"))
        case Some(offset) =>
          var items := listByDatastore(datastoreId.value, statuses, limit, offset);
          Ok(ListPage(items, |items|, limit, offset))
  }

  /** With only the datastore given, the query runs unfiltered with limit 50 and offset 0. */
  lemma ListDefaults(datastoreId: string,
                     listByDatastore: (string, Option<seq<string>>, int, int) -> seq<UploadSession>)
    requires datastoreId != ""
    ensures var r := ListUploadSessions(map["datastore_id" := datastoreId], listByDatastore);
      && r.Ok? && r.value.limit == 50 && r.value.offset == 0
      && r.value.items == listByDatastore(datastoreId, None, 50, 0)
  {
  }

  /** A limit and offset written in decimal (with `str`) are the ones the query gets and the response echoes. */
  lemma ListEchoesDecimalPaging(qp: map<string, string>, limit: int, offset: int,
                                listByDatastore: (string, Option<seq<string>>, int, int) -> seq<UploadSession>)
    requires Lookup(qp, "datastore_id") !in {None, Some("")}
    requires Lookup(qp, "limit") == Some(FormatInt(limit)) && Lookup(qp, "offset") == Some(FormatInt(offset))
    ensures var r := ListUploadSessions(qp, listByDatastore);
      && r.Ok? && r.value.limit == limit && r.value.offset == offset
      && r.value.count == |listByDatastore(qp["datastore_id"], ParseStatuses(Lookup(qp, "statuses")), limit, offset)|
  {
    ParseFormatInt(limit);
    ParseFormatInt(offset);
  }

  /** A limit that `int` refuses is an unhandled ValueError, even when the datastore is given. */
  lemma ListRejectsBadLimit(qp: map<string, string>,
                            listByDatastore: (string, Option<seq<string>>, int, int) -> seq<UploadSession>)
    requires Lookup(qp, "datastore_id") !in {None, Some("")}
    requires "limit" in qp && ParseInt(qp["limit"]).None?
    ensures ListUploadSessions(qp, listByDatastore) == Err(Unhandled("ValueError"))
  {
  }
}
