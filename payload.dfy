/**
 * `getRequestPayload` and `toValidJson` of middlewares/utils.go: the copy of a request
 * that the logging middleware records, with sensitive headers masked.
 */
module RequestPayload {
  import opened Wrappers
  import opened GoStrings

  /** Header name to its values, as `map[string][]string`. */
  type HeaderMap = map<string, seq<string>>

  /** The text that replaces each value of a masked header. */
  const MaskText := "***********"

  /** The values of header `k` among `visits`, in visit order. */
  function ValuesOf(visits: seq<(string, string)>, k: string): seq<string>
    decreases |visits|
  {
    if |visits| == 0 then []
    else
      var last := visits[|visits| - 1];
      ValuesOf(visits[..|visits| - 1], k) + (if last.0 == k then [last.1] else [])
  }

  /** Collects the headers `VisitAll` reports, appending each value under its name. */
  method CollectHeaders(visits: seq<(string, string)>) returns (headers: HeaderMap)
    ensures forall k :: k in headers <==> exists i :: 0 <= i < |visits| && visits[i].0 == k
    ensures forall k :: k in headers ==> headers[k] == ValuesOf(visits, k)
  {
    headers := map[];
    var i := 0;
    while i < |visits|
      invariant 0 <= i <= |visits|
      invariant Collected(headers, visits[..i])
    {
      var key := visits[i].0;
      var existing := if key in headers then headers[key] else [];
      CollectStep(visits, i, headers);
      headers := headers[key := existing + [visits[i].1]];
      i := i + 1;
    }
    assert visits[..i] == visits;
    forall k
      ensures k in headers <==> exists j :: 0 <= j < |visits| && visits[j].0 == k
    {
      NamesAre(visits, k);
    }
  }

  /** `h` holds, under each header name among `visits`, that header's values. */
  ghost predicate Collected(h: HeaderMap, visits: seq<(string, string)>) {
    && h.Keys == Names(visits)
    && (forall k :: k in h ==> h[k] == ValuesOf(visits, k))
    && (forall k :: k !in h ==> ValuesOf(visits, k) == [])
  }

  /** One loop step of `CollectHeaders` keeps `Collected`. */
  lemma CollectStep(visits: seq<(string, string)>, i: nat, h: HeaderMap)
    requires i < |visits| && Collected(h, visits[..i])
    ensures var key := visits[i].0;
      Collected(h[key := (if key in h then h[key] else []) + [visits[i].1]], visits[..i + 1])
  {
    var key := visits[i].0;
    var h2 := h[key := (if key in h then h[key] else []) + [visits[i].1]];
    NamesSnoc(visits, i);
    forall k | k in h2
      ensures h2[k] == ValuesOf(visits[..i + 1], k)
    {
      ValuesOfSnoc(visits, i, k);
    }
    forall k | k !in h2
      ensures ValuesOf(visits[..i + 1], k) == []
    {
      ValuesOfSnoc(visits, i, k);
    }
  }

  /** The header names among `visits`. */
  ghost function Names(visits: seq<(string, string)>): set<string>
    decreases |visits|
  {
    if |visits| == 0 then {} else Names(visits[..|visits| - 1]) + {visits[|visits| - 1].0}
  }

  lemma NamesSnoc(visits: seq<(string, string)>, i: nat)
    requires i < |visits|
    ensures Names(visits[..i + 1]) == Names(visits[..i]) + {visits[i].0}
  {
    assert visits[..i + 1][..i] == visits[..i];
  }

  lemma {:induction false} NamesAre(visits: seq<(string, string)>, k: string)
    ensures k in Names(visits) <==> exists j :: 0 <= j < |visits| && visits[j].0 == k
    decreases |visits|
  {
    if |visits| > 0 {
      var init := visits[..|visits| - 1];
      NamesAre(init, k);
      if k in Names(init) {
        var j :| 0 <= j < |init| && init[j].0 == k;
        assert visits[j] == init[j];
      }
      if exists j :: 0 <= j < |visits| && visits[j].0 == k {
        var j :| 0 <= j < |visits| && visits[j].0 == k;
        if j < |init| {
          assert init[j] == visits[j];
        }
      }
    }
  }

  /** One more visit adds its value to the values of its own header only. */
  lemma ValuesOfSnoc(visits: seq<(string, string)>, i: nat, k: string)
    requires i < |visits|
    ensures ValuesOf(visits[..i + 1], k) ==
      ValuesOf(visits[..i], k) + (if visits[i].0 == k then [visits[i].1] else [])
  {
    assert visits[..i + 1][..i] == visits[..i];
  }

  /** A header name matches an ignored name when they are equal ignoring case. */
  predicate Ignored(k: string, ignored: seq<string>) {
    exists j :: 0 <= j < |ignored| && EqualFold(k, ignored[j])
  }

  function Stars(n: nat): (r: seq<string>)
    ensures |r| == n && forall i :: 0 <= i < n ==> r[i] == MaskText
  {
    seq(n, _ => MaskText)
  }

  /** The headers after masking: every value of an ignored header is replaced. */
  function Masked(h: HeaderMap, ignored: seq<string>): HeaderMap {
    map k | k in h :: if Ignored(k, ignored) then Stars(|h[k]|) else h[k]
  }

  /** Replaces every value of `vals` by the mask text, one index at a time. */
  method MaskValues(vals: seq<string>) returns (r: seq<string>)
    ensures r == Stars(|vals|)
  {
    r := vals;
    var i := 0;
    while i < |r|
      invariant 0 <= i <= |r| == |vals|
      invariant forall j :: 0 <= j < i ==> r[j] == MaskText
    {
      r := r[i := MaskText];
      i := i + 1;
    }
  }

  /** The inner loops of the masking: every header whose name matches `name` has all
      its values replaced. */
  method MaskMatching(h: HeaderMap, name: string) returns (headers: HeaderMap)
    ensures headers.Keys == h.Keys
    ensures forall k :: k in headers ==> headers[k] == if EqualFold(k, name) then Stars(|h[k]|) else h[k]
  {
    headers := h;
    var todo := h.Keys;
    while todo != {}
      invariant todo <= headers.Keys == h.Keys
      invariant forall k :: k in headers && k !in todo ==>
                  headers[k] == if EqualFold(k, name) then Stars(|h[k]|) else h[k]
      invariant forall k :: k in todo ==> headers[k] == h[k]
      decreases todo
    {
      var k :| k in todo;
      if EqualFold(k, name) {
        var masked := MaskValues(headers[k]);
        headers := headers[k := masked];
      }
      todo := todo - {k};
    }
  }

  lemma IgnoredSnoc(x: string, ignored: seq<string>, j: nat)
    requires j < |ignored|
    ensures Ignored(x, ignored[..j + 1]) <==> Ignored(x, ignored[..j]) || EqualFold(x, ignored[j])
  {
    assert ignored[..j + 1][j] == ignored[j];
    if Ignored(x, ignored[..j + 1]) {
      var jj :| 0 <= jj < j + 1 && EqualFold(x, ignored[..j + 1][jj]);
      if jj < j {
        assert ignored[..j][jj] == ignored[..j + 1][jj];
      }
    }
    if Ignored(x, ignored[..j]) {
      var jj :| 0 <= jj < j && EqualFold(x, ignored[..j][jj]);
      assert ignored[..j + 1][jj] == ignored[..j][jj];
    }
  }

  /** The masking loops of `getRequestPayload`: for each ignored name, every header
      whose name matches it has all its values replaced. */
  method MaskHeaders(h: HeaderMap, ignored: seq<string>) returns (headers: HeaderMap)
    ensures headers == Masked(h, ignored)
  {
    headers := h;
    var j := 0;
    while j < |ignored|
      invariant 0 <= j <= |ignored|
      invariant headers.Keys == h.Keys
      invariant forall k :: k in headers ==>
                  headers[k] == if Ignored(k, ignored[..j]) then Stars(|h[k]|) else h[k]
    {
      headers := MaskMatching(headers, ignored[j]);
      forall k | k in headers
        ensures headers[k] == if Ignored(k, ignored[..j + 1]) then Stars(|h[k]|) else h[k]
      {
        IgnoredSnoc(k, ignored, j);
      }
      j := j + 1;
    }
    assert ignored[..j] == ignored;
  }

  /** Masking keeps every header and the number of its values, and changes nothing
      but ignored headers. */
  lemma MaskingKeepsShape(h: HeaderMap, ignored: seq<string>, k: string)
    requires k in h
    ensures k in Masked(h, ignored) && |Masked(h, ignored)[k]| == |h[k]|
    ensures !Ignored(k, ignored) ==> Masked(h, ignored)[k] == h[k]
    ensures Ignored(k, ignored) ==> forall i :: 0 <= i < |h[k]| ==> Masked(h, ignored)[k][i] == MaskText
    ensures Masked(h, ignored).Keys == h.Keys
  {
  }

  /** Masking twice is masking once. */
  lemma MaskingIdempotent(h: HeaderMap, ignored: seq<string>)
    ensures Masked(Masked(h, ignored), ignored) == Masked(h, ignored)
  {
  }

  /** The query parameters: one value per key, as `url.Values.Set` stores it. */
  method SetQueries(queries: map<string, string>) returns (values: map<string, seq<string>>)
    ensures values.Keys == queries.Keys
    ensures forall k :: k in values ==> values[k] == [queries[k]]
  {
    values := map[];
    var todo := queries.Keys;
    while todo != {}
      invariant todo <= queries.Keys
      invariant values.Keys == queries.Keys - todo
      invariant forall k :: k in values ==> values[k] == [queries[k]]
      decreases todo
    {
      var key :| key in todo;
      values := values[key := [queries[key]]];
      todo := todo - {key};
    }
  }

  /** `toValidJson(data)` with a JSON object decoder: nil for malformed input. */
  function ToValidJson<J>(data: seq<bv8>, unmarshal: seq<bv8> -> Option<J>): (r: Option<J>)
    ensures r.Some? ==> unmarshal(data) == r
    ensures unmarshal(data).None? ==> r.None?
  {
    match unmarshal(data)
    case None => None
    case Some(obj) => Some(obj)
  }

  datatype Payload<J> = Payload(body: Option<J>, queryParams: map<string, seq<string>>, headers: HeaderMap)

  /** `getRequestPayload`, given the raw body, the visited headers, the query values
      and the list of header names to mask. */
  method GetRequestPayload<J>(body: seq<bv8>, unmarshal: seq<bv8> -> Option<J>,
                              visits: seq<(string, string)>, queries: map<string, string>,
                              ignoredHeaders: seq<string>)
    returns (p: Payload<J>)
    ensures p.body == ToValidJson(body, unmarshal)
    ensures forall k :: k in p.headers <==> exists i :: 0 <= i < |visits| && visits[i].0 == k
    ensures forall k :: k in p.headers ==>
              p.headers[k] == if Ignored(k, ignoredHeaders) then Stars(|ValuesOf(visits, k)|) else ValuesOf(visits, k)
    ensures p.queryParams.Keys == queries.Keys
    ensures forall k :: k in p.queryParams ==> p.queryParams[k] == [queries[k]]
  {
    var bodyJson := ToValidJson(body, unmarshal);
    var headers := CollectHeaders(visits);
    headers := MaskHeaders(headers, ignoredHeaders);
    var values := SetQueries(queries);
    p := Payload(bodyJson, values, headers);
  }
}
