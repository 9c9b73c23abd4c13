/**
 * The fluent builder `JsonApiClient`: its state, its setters, and the
 * description of the one request that a terminal verb hands to the HTTP
 * transport. The transport call itself, the debug log and the response
 * wrapper lie outside this model; a request ends in a `Dispatch` value.
 */
module Client {
  import opened Options
  import opened Php
  import opened Forms
  import Query

  /** The request body: multipart rows, or the form data sent as form fields. */
  datatype Body = Multipart(parts: seq<Part>) | FormParams(form: Option<FormFields>)

  /** The option array given to the transport. */
  datatype Params = Params(headers: Assoc, query: Assoc, json: Option<Value>, body: Body) {

    /** The option array's keys in the order the client writes them. */
    function Keys(): (ks: seq<string>)
      ensures |ks| >= 3 && ks[..2] == ["headers", "query"]
      ensures "json" in ks <==> json.Some?
      ensures "multipart" in ks <==> "form_params" !in ks
      ensures "multipart" in ks <==> body.Multipart?
    {
      ["headers", "query"] + (if json.Some? then ["json"] else [])
      + (if body.Multipart? then ["multipart"] else ["form_params"])
    }
  }

  /** What reaches the transport (verb, url, options) and the flag handed to the response. */
  datatype Dispatch = Dispatch(verb: string, url: string, params: Params, throwException: bool)

  /** A snapshot of every field of the builder the request depends on. */
  datatype ClientState = ClientState(
    token: Value,
    includes: Assoc,
    fields: seq<(string, Assoc)>,
    filters: Assoc,
    multipart: bool,
    query: Assoc,
    limit: Value,
    offset: Value,
    formData: Option<FormFields>,
    jsonData: Value,
    throwException: bool)

  /** The Authorization header: present only for a truthy token. */
  function Headers(token: Value): (h: Assoc)
    ensures h != [] <==> Truthy(token)
    ensures forall i :: 0 <= i < |h| ==> h[i].0 == "Authorization"
    ensures Truthy(token) ==> h == [("Authorization", Str("Bearer " + StrVal(token)))]
  {
    if Truthy(token) then [("Authorization", Str("Bearer " + StrVal(token)))] else []
  }

  /** The bearer credential a server reads back from the headers, if any. */
  function BearerToken(h: Assoc): Option<string> {
    match Lookup(h, "Authorization")
    case Some(Str(s)) => if |s| >= 7 && s[..7] == "Bearer " then Some(s[7..]) else None
    case _ => None
  }

  /** The headers carry exactly the token as a bearer credential, or nothing for a falsy token. */
  lemma HeadersCarryToken(token: Value)
    ensures BearerToken(Headers(token)) == if Truthy(token) then Some(StrVal(token)) else None
  {
    if Truthy(token) {
      var s := "Bearer " + StrVal(token);
      assert s[..7] == "Bearer " && s[7..] == StrVal(token);
    }
  }

  class JsonApiClient {
    var token: Value
    var includes: Assoc
    var fields: seq<(string, Assoc)>
    var filters: Assoc
    var multipart: bool
    var query: Assoc
    var limit: Value
    var offset: Value
    var formData: Option<FormFields>
    var jsonData: Value
    var throwException: bool

    /** Every form passed to FormData so far, oldest first. */
    ghost var formHistory: seq<FormFields>

    /** The multipart flag records whether any form so far held a file; formData is the latest form. */
    ghost predicate Valid()
      reads this`multipart, this`formData, this`formHistory
    {
      && (multipart <==> exists i :: 0 <= i < |formHistory| && HasFile(formHistory[i]))
      && formData == (if formHistory == [] then None else Some(formHistory[|formHistory| - 1]))
    }

    function State(): ClientState
      reads this
    {
      ClientState(token, includes, fields, filters, multipart, query, limit, offset, formData, jsonData, throwException)
    }

    constructor (token: Value := Null)
      ensures Valid() && formHistory == []
      ensures State() == ClientState(token, [], [], [], false, [], Null, Null, None, Null, true)
    {
      this.token := token;
      includes, fields, filters, query := [], [], [], [];
      multipart := false;
      limit, offset := Null, Null;
      formData, jsonData := None, Null;
      throwException := true;
      formHistory := [];
    }

    method WithIncludes(includes: Assoc)
      modifies this`includes
      ensures State() == old(State()).(includes := includes)
    {
      this.includes := includes;
    }

    method WithFields(fields: seq<(string, Assoc)>)
      modifies this`fields
      ensures State() == old(State()).(fields := fields)
    {
      this.fields := fields;
    }

    method WithFilters(filters: Assoc)
      modifies this`filters
      ensures State() == old(State()).(filters := filters)
    {
      this.filters := filters;
    }

    method WithQuery(query: Assoc)
      modifies this`query
      ensures State() == old(State()).(query := query)
    {
      this.query := query;
    }

    /** Stores the form; a file anywhere in it switches the body to multipart for good. */
    method FormData(data: FormFields)
      requires Valid()
      modifies this`formData, this`multipart, this`formHistory
      ensures Valid() && formHistory == old(formHistory) + [data]
      ensures State() == old(State()).(formData := Some(data), multipart := old(multipart) || HasFile(data))
    {
      formData := Some(data);
      formHistory := formHistory + [data];
      var i := 0;
      while i < |data|
        invariant 0 <= i <= |data|
        invariant formData == Some(data) && formHistory == old(formHistory) + [data]
        invariant multipart == (old(multipart) || exists j :: 0 <= j < i && data[j].1.File?)
      {
        if data[i].1.File? {
          multipart := true;
        }
        i := i + 1;
      }
      assert multipart == (old(multipart) || HasFile(data));
      assert formHistory[|formHistory| - 1] == data;
      assert forall h :: 0 <= h < |old(formHistory)| ==> formHistory[h] == old(formHistory)[h];
    }

    method JsonData(data: Value)
      modifies this`jsonData
      ensures State() == old(State()).(jsonData := data)
    {
      jsonData := data;
    }

    method ThrowException(status: bool := true)
      modifies this`throwException
      ensures State() == old(State()).(throwException := status)
    {
      throwException := status;
    }

    /** Sets the page window; the offset defaults to 0, which is falsy. */
    method Limit(limit: Value, offset: Value := Int(0))
      modifies this`limit, this`offset
      ensures State() == old(State()).(limit := limit, offset := offset)
    {
      this.limit := limit;
      this.offset := offset;
    }

    method Token(token: Value)
      modifies this`token
      ensures State() == old(State()).(token := token)
    {
      this.token := token;
    }

    /** The query array, assembled group by group as Query.Build describes. */
    method BuildQuery() returns (q: Assoc)
      ensures q == Query.Build(query, limit, offset, filters, fields, includes)
    {
      q := [];
      if Truthy(Arr(query)) {
        q := query;
      }
      if Truthy(limit) || Truthy(offset) {
        q := WritePage(q, limit, offset);
      }
      if filters != [] {
        q := WriteFilters(q, filters);
      }
      if fields != [] {
        q := WriteFields(q, fields);
      }
      if includes != [] {
        q := Put(q, "include", Str(Implode(includes)));
      }
    }

    /** The pagination block: an empty `page`, then the truthy limit, then the truthy offset. */
    static method WritePage(q0: Assoc, limit: Value, offset: Value) returns (q: Assoc)
      requires Truthy(limit) || Truthy(offset)
      ensures q == Query.AddPage(q0, limit, offset)
    {
      ghost var page: Assoc := [];
      q := Put(q0, "page", Arr([]));
      if Truthy(limit) {
        Query.PageLimitStep(q0, limit);
        q := PutPath(q, ["page", "limit"], limit);
        page := [("limit", limit)];
      }
      if Truthy(offset) {
        Query.PageOffsetStep(q0, page, offset);
        q := PutPath(q, ["page", "offset"], offset);
        page := page + [("offset", offset)];
      }
      assert page == Query.PageGroup(limit, offset);
    }

    /** The filter loop: each resource in order, walked or stored as it is. */
    static method WriteFilters(q0: Assoc, filters: Assoc) returns (q: Assoc)
      ensures q == Query.AddFilters(q0, filters)
    {
      q := q0;
      var i := 0;
      while i < |filters|
        invariant 0 <= i <= |filters|
        invariant q == Query.AddFilters(q0, filters[..i])
      {
        var (resource, columns) := filters[i];
        if columns.Arr? {
          q := WriteColumns(q, resource, columns.entries);
        } else {
          q := PutPath(q, ["filter", resource], columns);
        }
        assert filters[..i + 1][..i] == filters[..i] && filters[..i + 1][i] == filters[i];
        i := i + 1;
      }
      assert filters[..i] == filters;
    }

    /** The sparse-fieldset loop: one comma-joined entry per resource. */
    static method WriteFields(q0: Assoc, fields: seq<(string, Assoc)>) returns (q: Assoc)
      ensures q == Query.AddFields(q0, fields)
    {
      q := q0;
      var i := 0;
      while i < |fields|
        invariant 0 <= i <= |fields|
        invariant q == Query.AddFields(q0, fields[..i])
      {
        var (resource, fieldList) := fields[i];
        q := PutPath(q, ["fields", resource], Str(Implode(fieldList)));
        assert fields[..i + 1][..i] == fields[..i] && fields[..i + 1][i] == fields[i];
        i := i + 1;
      }
      assert fields[..i] == fields;
    }

    /** The body of the filter loop for one resource whose value is an array of columns. */
    static method WriteColumns(q0: Assoc, resource: string, cols: Assoc) returns (q: Assoc)
      ensures q == Query.AddColumns(q0, resource, cols)
    {
      q := q0;
      var j := 0;
      while j < |cols|
        invariant 0 <= j <= |cols|
        invariant q == Query.AddColumns(q0, resource, cols[..j])
      {
        var (column, operands) := cols[j];
        if operands.Arr? {
          ghost var atColumn := q;
          var ops := operands.entries;
          var k := 0;
          while k < |ops|
            invariant 0 <= k <= |ops|
            invariant q == Query.AddOperands(atColumn, resource, column, ops[..k])
          {
            var (operand, value) := ops[k];
            q := PutPath(q, ["filter", resource, column, operand],
                         if value.Arr? then Str(Implode(value.entries)) else value);
            assert ops[..k + 1][..k] == ops[..k];
            k := k + 1;
          }
          assert ops[..k] == ops;
        }
        assert cols[..j + 1][..j] == cols[..j];
        j := j + 1;
      }
      assert cols[..j] == cols;
    }

    /** One row per form field, in order, as Forms.ToParts describes. */
    method ConvertFormDataIntoMultipart(data: FormFields := []) returns (res: seq<Part>)
      ensures res == ToParts(data)
    {
      res := [];
      var i := 0;
      while i < |data|
        invariant 0 <= i <= |data|
        invariant res == ToParts(data[..i])
      {
        var (name, value) := data[i];
        var row;
        if value.File? {
          row := Part(name, Handle(value.path), Some(value.originalName));
        } else {
          row := Part(name, Plain(value.v), None);
        }
        res := res + [row];
        assert data[..i + 1][..i] == data[..i];
        i := i + 1;
      }
      assert data[..i] == data;
    }

    /** The request a terminal verb hands to the transport. */
    function Dispatched(verb: string, url: string): Dispatch
      reads this
    {
      var body := if multipart then Multipart(ToParts(formData.GetOr([]))) else FormParams(formData);
      var json := if jsonData != Null then Some(jsonData) else None;
      Dispatch(verb, url,
               Params(Headers(token), Query.Build(query, limit, offset, filters, fields, includes), json, body),
               throwException)
    }

    method Request(verb: string, url: string) returns (d: Dispatch)
      ensures d == Dispatched(verb, url)
      ensures d.params.json.Some? <==> jsonData != Null
      ensures d.params.json.Some? ==> d.params.json.value == jsonData
      ensures d.params.body.Multipart? <==> multipart
      ensures Valid() ==> (d.params.body.Multipart? <==> exists i :: 0 <= i < |formHistory| && HasFile(formHistory[i]))
      ensures d.params.body.FormParams? ==> d.params.body.form == formData
      ensures BearerToken(d.params.headers) == if Truthy(token) then Some(StrVal(token)) else None
      ensures d.throwException == throwException
    {
      var params := Params(Headers(token), [], None, FormParams(None));
      var q := BuildQuery();
      params := params.(query := q);
      if jsonData != Null {
        params := params.(json := Some(jsonData));
      }
      if multipart {
        // A form that was never set (null) converts to no rows.
        var parts := ConvertFormDataIntoMultipart(formData.GetOr([]));
        params := params.(body := Multipart(parts));
      } else {
        params := params.(body := FormParams(formData));
      }
      HeadersCarryToken(token);
      d := Dispatch(verb, url, params, throwException);
    }

    method Get(url: string) returns (d: Dispatch)
      ensures d == Dispatched("GET", url)
    {
      d := Request("GET", url);
    }

    method Post(url: string) returns (d: Dispatch)
      ensures d == Dispatched("POST", url)
    {
      d := Request("POST", url);
    }

    method Patch(url: string) returns (d: Dispatch)
      ensures d == Dispatched("PATCH", url)
    {
      d := Request("PATCH", url);
    }

    method Delete(url: string) returns (d: Dispatch)
      ensures d == Dispatched("DELETE", url)
    {
      d := Request("DELETE", url);
    }
  }
}
