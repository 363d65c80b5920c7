/**
 * `makeRequest`: a fresh request stamped with the method token, then each
 * header of the dictionary applied in the dictionary's iteration order,
 * replacing a field already present under a case-insensitively equal name
 * and adding it otherwise. Swift leaves that order unspecified, so it is a
 * parameter and the properties are proved for every order.
 */
module Requests {
  import opened Base
  import opened Foundation
  import opened HttpMethods
  import opened Logging

  /** `order` lists each key of the dictionary exactly once, as `headers.keys` does. */
  ghost predicate EnumeratesKeys(order: seq<string>, headers: map<string, string>) {
    && (forall k :: k in headers <==> k in order)
    && (forall i, j :: 0 <= i < j < |order| ==> order[i] != order[j])
  }

  /** No two keys of the dictionary name the same header case-insensitively. */
  ghost predicate CaseDistinct(headers: map<string, string>) {
    forall k1, k2 :: k1 in headers && k2 in headers && FoldCase(k1) == FoldCase(k2) ==> k1 == k2
  }

  /**
   * One pass of the header loop. A key the dictionary lacks is skipped; a
   * field already present is replaced, and only an absent one is added, so
   * the field ends up holding exactly the dictionary's value (never a
   * comma-joined list).
   */
  function ApplyHeader(request: URLRequest, headers: map<string, string>, key: string): (r: URLRequest)
    ensures r.url == request.url && r.httpMethod == request.httpMethod
    ensures key !in headers ==> r == request
    ensures key in headers ==> r.headerFields == request.headerFields[FoldCase(key) := headers[key]]
  {
    if key !in headers then request
    else
      var value := headers[key];
      if ValueForHTTPHeaderField(request, key).Some? then SetValue(request, value, key)
      else AddValue(request, value, key)
  }

  /** The header loop run over the keys in `order`. */
  function ApplyHeaders(request: URLRequest, headers: map<string, string>, order: seq<string>): (r: URLRequest)
    ensures r.url == request.url && r.httpMethod == request.httpMethod
    decreases |order|
  {
    if order == [] then request
    else ApplyHeader(ApplyHeaders(request, headers, order[..|order| - 1]), headers, order[|order| - 1])
  }

  /** The request `makeRequest` returns, when the dictionary's keys come in `order`. */
  function BuildRequest(url: string, m: HTTPMethod, headers: Option<map<string, string>>, order: seq<string>): URLRequest {
    var request := NewRequest(url).(httpMethod := m.RawValue());
    match headers
    case None => request
    case Some(h) => ApplyHeaders(request, h, order)
  }

  /** What `makeRequest` yields: the request, with the lines `logRequest` printed before building it. */
  function LoggedRequest(ctx: LogContext, url: string, m: HTTPMethod, headers: Option<map<string, string>>,
                         order: seq<string>): Logged<URLRequest> {
    Logged(BuildRequest(url, m, headers, order), LogRequest(ctx, m, url, headers))
  }

  /** `makeRequest(for:method:headers:)`: logs the request, then builds it. */
  method MakeRequest(ctx: LogContext, url: string, m: HTTPMethod, headers: Option<map<string, string>>, order: seq<string>)
    returns (request: URLRequest, lines: seq<string>)
    ensures Logged(request, lines) == LoggedRequest(ctx, url, m, headers, order)
    ensures request.url == url && request.httpMethod == m.RawValue()
    ensures headers.None? ==> request.headerFields == map[]
  {
    lines := LogRequest(ctx, m, url, headers);
    request := NewRequest(url);
    request := request.(httpMethod := m.RawValue());
    if headers.Some? {
      var h := headers.value;
      ghost var start := request;
      for i := 0 to |order|
        invariant request == ApplyHeaders(start, h, order[..i])
      {
        assert order[..i + 1][..i] == order[..i];
        var key := order[i];
        if key !in h {
          continue;
        }
        var value := h[key];
        if ValueForHTTPHeaderField(request, key).Some? {
          request := SetValue(request, value, key);
        } else {
          request := AddValue(request, value, key);
        }
      }
      assert order[..|order|] == order;
    }
  }

  /** The fields after the loop: those present before, plus the folded name of every key visited. */
  lemma {:induction false} ApplyHeadersKeys(request: URLRequest, headers: map<string, string>, order: seq<string>)
    ensures ApplyHeaders(request, headers, order).headerFields.Keys
            == request.headerFields.Keys + set k | k in order && k in headers :: FoldCase(k)
    decreases |order|
  {
    if order != [] {
      var n := |order|;
      ApplyHeadersKeys(request, headers, order[..n - 1]);
      assert forall k :: k in order <==> k in order[..n - 1] || k == order[n - 1];
    }
  }

  /** Every field the loop wrote holds the value of a dictionary key that folds to its name. */
  lemma {:induction false} ApplyHeadersValues(request: URLRequest, headers: map<string, string>, order: seq<string>)
    ensures var fields := ApplyHeaders(request, headers, order).headerFields;
            forall f :: f in fields ==>
              (f in request.headerFields && fields[f] == request.headerFields[f])
              || (exists k :: k in headers && FoldCase(k) == f && fields[f] == headers[k])
    decreases |order|
  {
    if order != [] {
      ApplyHeadersValues(request, headers, order[..|order| - 1]);
    }
  }

  /**
   * The last key in `order` that names a header wins it: its value is what
   * the field holds afterwards.
   */
  lemma {:induction false} LastWriterWins(request: URLRequest, headers: map<string, string>, order: seq<string>, j: nat)
    requires j < |order| && order[j] in headers
    requires forall j' :: j < j' < |order| && order[j'] in headers ==> FoldCase(order[j']) != FoldCase(order[j])
    ensures var fields := ApplyHeaders(request, headers, order).headerFields;
            FoldCase(order[j]) in fields && fields[FoldCase(order[j])] == headers[order[j]]
    decreases |order|
  {
    var n := |order|;
    if j < n - 1 {
      LastWriterWins(request, headers, order[..n - 1], j);
    }
  }

  /** A field that no visited key names keeps its value through the loop. */
  lemma {:induction false} ApplyHeadersUntouched(request: URLRequest, headers: map<string, string>, order: seq<string>, f: string)
    requires f in request.headerFields
    requires forall i :: 0 <= i < |order| && order[i] in headers ==> FoldCase(order[i]) != f
    ensures var fields := ApplyHeaders(request, headers, order).headerFields;
            f in fields && fields[f] == request.headerFields[f]
    decreases |order|
  {
    var n := |order|;
    if n > 0 {
      var prefix := order[..n - 1];
      assert forall i :: 0 <= i < n - 1 ==> prefix[i] == order[i];
      ApplyHeadersUntouched(request, headers, prefix, f);
    }
  }

  /** The position of the last visited key that names the header `f`. */
  lemma {:induction false} LastVisit(headers: map<string, string>, order: seq<string>, f: string) returns (j: nat)
    requires exists i :: 0 <= i < |order| && order[i] in headers && FoldCase(order[i]) == f
    ensures j < |order| && order[j] in headers && FoldCase(order[j]) == f
    ensures forall j' :: j < j' < |order| && order[j'] in headers ==> FoldCase(order[j']) != f
    decreases |order|
  {
    var n := |order|;
    if order[n - 1] in headers && FoldCase(order[n - 1]) == f {
      j := n - 1;
    } else {
      var i :| 0 <= i < n && order[i] in headers && FoldCase(order[i]) == f;
      var prefix := order[..n - 1];
      assert prefix[i] == order[i];
      j := LastVisit(headers, prefix, f);
      assert forall j' :: j < j' < n - 1 ==> prefix[j'] == order[j'];
    }
  }

  /**
   * Merging is idempotent: applying the same dictionary again, in the same
   * order, changes nothing, whether or not its keys collide.
   */
  lemma ApplyHeadersIdempotent(request: URLRequest, headers: map<string, string>, order: seq<string>)
    ensures ApplyHeaders(ApplyHeaders(request, headers, order), headers, order) == ApplyHeaders(request, headers, order)
  {
    var once := ApplyHeaders(request, headers, order);
    var twice := ApplyHeaders(once, headers, order);
    ApplyHeadersKeys(request, headers, order);
    ApplyHeadersKeys(once, headers, order);
    forall f | f in once.headerFields
      ensures f in twice.headerFields && twice.headerFields[f] == once.headerFields[f]
    {
      if exists i :: 0 <= i < |order| && order[i] in headers && FoldCase(order[i]) == f {
        var j := LastVisit(headers, order, f);
        LastWriterWins(request, headers, order, j);
        LastWriterWins(once, headers, order, j);
      } else {
        ApplyHeadersUntouched(once, headers, order, f);
      }
    }
    assert twice.headerFields == once.headerFields;
  }

  /**
   * What `makeRequest` promises about headers, for every iteration order:
   * nil headers give no fields; otherwise each supplied key has exactly one
   * field (its case-folded name), holding the value of a key with that
   * name, and no two fields are case-insensitively equal.
   */
  lemma BuildRequestHeaders(url: string, m: HTTPMethod, headers: Option<map<string, string>>, order: seq<string>)
    requires headers.Some? ==> EnumeratesKeys(order, headers.value)
    ensures var request := BuildRequest(url, m, headers, order);
            && request.url == url && request.httpMethod == m.RawValue()
            && (headers.None? ==> request.headerFields == map[])
            && (headers.Some? ==> request.headerFields.Keys == set k | k in headers.value :: FoldCase(k))
            && (forall f :: f in request.headerFields ==> FoldCase(f) == f)
            && (headers.Some? ==> forall f :: f in request.headerFields ==>
                  exists k :: k in headers.value && FoldCase(k) == f && request.headerFields[f] == headers.value[k])
  {
    if headers.Some? {
      var start := NewRequest(url).(httpMethod := m.RawValue());
      var h := headers.value;
      ApplyHeadersKeys(start, h, order);
      ApplyHeadersValues(start, h, order);
      var fields := BuildRequest(url, m, headers, order).headerFields;
      forall f | f in fields
        ensures FoldCase(f) == f
      {
        var k :| k in h && FoldCase(k) == f;
        FoldCaseIdempotent(k);
      }
    }
  }

  /** When no two keys collide case-insensitively, every key's field holds exactly its own value. */
  lemma DistinctKeysKeepTheirValues(request: URLRequest, headers: map<string, string>, order: seq<string>)
    requires EnumeratesKeys(order, headers) && CaseDistinct(headers)
    ensures var fields := ApplyHeaders(request, headers, order).headerFields;
            forall k :: k in headers ==> FoldCase(k) in fields && fields[FoldCase(k)] == headers[k]
  {
    forall k | k in headers
      ensures var fields := ApplyHeaders(request, headers, order).headerFields;
              FoldCase(k) in fields && fields[FoldCase(k)] == headers[k]
    {
      var j :| 0 <= j < |order| && order[j] == k;
      LastWriterWins(request, headers, order, j);
    }
  }

  /** When no two keys collide case-insensitively, the iteration order does not matter. */
  lemma OrderIrrelevantWithoutCollisions(url: string, m: HTTPMethod, headers: map<string, string>, o1: seq<string>, o2: seq<string>)
    requires EnumeratesKeys(o1, headers) && EnumeratesKeys(o2, headers) && CaseDistinct(headers)
    ensures BuildRequest(url, m, Some(headers), o1) == BuildRequest(url, m, Some(headers), o2)
  {
    var r1, r2 := BuildRequest(url, m, Some(headers), o1), BuildRequest(url, m, Some(headers), o2);
    BuildRequestHeaders(url, m, Some(headers), o1);
    BuildRequestHeaders(url, m, Some(headers), o2);
    var start := NewRequest(url).(httpMethod := m.RawValue());
    DistinctKeysKeepTheirValues(start, headers, o1);
    DistinctKeysKeepTheirValues(start, headers, o2);
    assert r1.headerFields == r2.headerFields by {
      forall f | f in r1.headerFields
        ensures r1.headerFields[f] == r2.headerFields[f]
      {
        var k :| k in headers && FoldCase(k) == f;
      }
    }
  }

  /**
   * Keys that collide case-insensitively are resolved by iteration order:
   * with both "X" and "x" supplied, whichever comes last is kept.
   */
  lemma CollidingKeysFollowOrder(url: string, m: HTTPMethod)
    ensures var headers := map["X" := "a", "x" := "b"];
            && BuildRequest(url, m, Some(headers), ["X", "x"]).headerFields == map["x" := "b"]
            && BuildRequest(url, m, Some(headers), ["x", "X"]).headerFields == map["x" := "a"]
  {
    assert FoldCase("X") == "x" && FoldCase("x") == "x";
    assert ["X", "x"][..1] == ["X"] && ["x", "X"][..1] == ["x"];
    assert ["X"][..0] == [] && ["x"][..0] == [];
  }

  /** A supplied header overrides a field already present under another case: `{"X": "a"}` onto `{"x": "old"}`. */
  lemma OverrideKeepsOneField(request: URLRequest)
    requires request.headerFields == map["x" := "old"]
    ensures ApplyHeader(request, map["X" := "a"], "X").headerFields == map["x" := "a"]
  {
    assert FoldCase("X") == "x";
  }
}
