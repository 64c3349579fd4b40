/**
 * The transport of lib/connection.class.php: a Connection holds a base URL
 * and one cURL handle, and each request re-configures that handle's
 * options before executing it. The handle is never closed, so options set
 * by one request stay in force for the next unless it sets them again.
 *
 * curl_exec, http_build_query and the printed diagnostic are not modelled:
 * the result of curl_exec and the encoding function are parameters.
 */
module Http {
  import opened Php

  /** The cURL options the connection touches. */
  datatype CurlOpt = ReturnTransfer | PostFields | Url | HttpHeader | CustomRequest

  datatype OptValue = Flag(n: int) | Text(s: string) | Lines(lines: seq<string>)

  type Options = map<CurlOpt, OptValue>

  /** What curl_exec returns with RETURNTRANSFER set: false on a transport failure, else the body. */
  datatype Response = Failed | Body(text: string)
  {
    /** The PHP value of the result: `false` or the body string. */
    function AsPhp(): Value
    {
      match this
      case Failed => Bool(false)
      case Body(text) => Str(text)
    }
  }

  /** A cURL handle: a bag of options that curl_setopt updates in place. */
  class Handle {
    var options: Options

    /** curl_init(): a handle with no options set. */
    constructor ()
      ensures options == map[]
    {
      options := map[];
    }

    /** curl_setopt($handle, opt, value). */
    method SetOpt(opt: CurlOpt, value: OptValue)
      modifies this
      ensures options == old(options)[opt := value]
    {
      options := options[opt := value];
    }
  }

  /** strtolower on one character: ASCII upper-case letters only. */
  function LowerChar(c: char): char
  {
    if 'A' <= c <= 'Z' then (c as int + 32) as char else c
  }

  /** strtolower. */
  function Lower(s: string): (r: string)
  {
    if s == [] then [] else [LowerChar(s[0])] + Lower(s[1..])
  }

  /** The methods whose data go into the URL: in_array(strtolower($method), array('get', 'delete')). */
  predicate SendsQueryInUrl(verb: string)
  {
    Lower(verb) in ["get", "delete"]
  }

  /** The four methods the wrappers use fall on the expected sides, whatever the case. */
  lemma QueryVerbs()
    ensures SendsQueryInUrl("GET") && SendsQueryInUrl("DELETE")
    ensures SendsQueryInUrl("get") && SendsQueryInUrl("Delete")
    ensures !SendsQueryInUrl("POST") && !SendsQueryInUrl("PUT")
  {
    assert Lower("GET") == "get";
    assert Lower("DELETE") == "delete";
    assert Lower("Delete") == "delete";
    assert Lower("POST") == "post";
    assert Lower("PUT") == "put";
  }

  /** Lower-casing ignores case: two verbs that differ only in letter case are treated alike. */
  lemma {:induction false} SendsQueryInUrlIgnoresCase(a: string, b: string)
    requires |a| == |b|
    requires forall i :: 0 <= i < |a| ==> LowerChar(a[i]) == LowerChar(b[i])
    ensures Lower(a) == Lower(b)
    ensures SendsQueryInUrl(a) <==> SendsQueryInUrl(b)
  {
    if a != [] {
      SendsQueryInUrlIgnoresCase(a[1..], b[1..]);
    }
  }

  /**
   * The handle's options after one request, given the options before it.
   * `data` is the request's parameter array (the source's `false` default
   * behaves as the empty array: both are falsy), `headers` its header
   * lines (none when empty), `encode` stands for http_build_query.
   */
  function RequestOptions(before: Options, root: string, path: string, verb: string,
                          data: Entries, headers: seq<string>, encode: Entries -> string): (after: Options)
    // the URL is the root, the path, and for GET/DELETE with data the encoded query
    ensures Url in after
    ensures SendsQueryInUrl(verb) && data != [] ==> after[Url] == Text(root + path + "?" + encode(data))
    ensures !(SendsQueryInUrl(verb) && data != []) ==> after[Url] == Text(root + path)
    // POST/PUT (any other method) carry the encoded data, or "", as the body
    ensures !SendsQueryInUrl(verb) ==> PostFields in after
    ensures !SendsQueryInUrl(verb) && data != [] ==> after[PostFields] == Text(encode(data))
    ensures !SendsQueryInUrl(verb) && data == [] ==> after[PostFields] == Text("")
    // GET/DELETE leave whatever body an earlier request set
    ensures SendsQueryInUrl(verb) ==> (PostFields in after <==> PostFields in before)
    ensures SendsQueryInUrl(verb) && PostFields in before ==> after[PostFields] == before[PostFields]
    // headers are set only when given; otherwise the previous ones stay
    ensures headers != [] ==> HttpHeader in after && after[HttpHeader] == Lines(headers)
    ensures headers == [] ==> (HttpHeader in after <==> HttpHeader in before)
    ensures headers == [] && HttpHeader in before ==> after[HttpHeader] == before[HttpHeader]
    // the method is sent exactly as given
    ensures CustomRequest in after && after[CustomRequest] == Text(verb)
    // nothing else changes
    ensures ReturnTransfer in after <==> ReturnTransfer in before
    ensures ReturnTransfer in before ==> after[ReturnTransfer] == before[ReturnTransfer]
  {
    var query := if data != [] then encode(data) else "";
    var withBody := if SendsQueryInUrl(verb) then before else before[PostFields := Text(query)];
    var target := if SendsQueryInUrl(verb) && data != [] then path + "?" + query else path;
    assert SendsQueryInUrl(verb) && data != [] ==> root + target == root + path + "?" + encode(data);
    var withUrl := withBody[Url := Text(root + target)];
    var withHeaders := if headers != [] then withUrl[HttpHeader := Lines(headers)] else withUrl;
    withHeaders[CustomRequest := Text(verb)]
  }

  /** The server name stored in the connection, and the shared cURL handle. */
  class Connection {
    const root: string
    const http: Handle

    /**
     * Stores the server as the root of every URL; uses the injected
     * handle if one is given, else a new handle that returns the body
     * as a string.
     */
    constructor (server: string, injected: Option<Handle>)
      ensures root == server
      ensures injected.Some? ==> http == injected.value
      ensures injected.None? ==> fresh(http) && http.options == map[ReturnTransfer := Flag(1)]
    {
      root := server;
      if injected.Some? {
        http := injected.value;
      } else {
        var handle := new Handle();
        handle.SetOpt(ReturnTransfer, Flag(1));
        http := handle;
      }
    }

    /**
     * _request: configures the shared handle for one request and hands back
     * what executing it returned (`response`), false included.
     */
    method Request(path: string, verb: string, data: Entries, headers: seq<string>,
                   encode: Entries -> string, response: Response) returns (result: Response)
      modifies http
      ensures http.options == RequestOptions(old(http.options), root, path, verb, data, headers, encode)
      ensures result == response
    {
      var query := "";
      if data != [] {
        query := encode(data);
      }
      var target := path;
      if SendsQueryInUrl(verb) {
        if data != [] {
          target := path + "?" + query;
        }
      } else {
        var body := if data != [] then query else "";
        http.SetOpt(PostFields, Text(body));
      }
      var url := root + target;
      http.SetOpt(Url, Text(url));
      if headers != [] {
        http.SetOpt(HttpHeader, Lines(headers));
      }
      http.SetOpt(CustomRequest, Text(verb));
      result := response;
    }

    /** get: a GET request, data in the query string. */
    method Get(path: string, data: Entries, headers: seq<string>,
               encode: Entries -> string, response: Response) returns (result: Response)
      modifies http
      ensures http.options == RequestOptions(old(http.options), root, path, "GET", data, headers, encode)
      ensures http.options[Url] == Text(root + path + if data != [] then "?" + encode(data) else "")
      ensures PostFields in http.options <==> PostFields in old(http.options)
      ensures PostFields in old(http.options) ==>
                PostFields in http.options && http.options[PostFields] == old(http.options)[PostFields]
      ensures result == response
    {
      QueryVerbs();
      result := Request(path, "GET", data, headers, encode, response);
    }

    /** post: a POST request, data in the body. */
    method Post(path: string, data: Entries, headers: seq<string>,
                encode: Entries -> string, response: Response) returns (result: Response)
      modifies http
      ensures http.options == RequestOptions(old(http.options), root, path, "POST", data, headers, encode)
      ensures http.options[Url] == Text(root + path)
      ensures PostFields in http.options && http.options[PostFields] == Text(if data != [] then encode(data) else "")
      ensures result == response
    {
      QueryVerbs();
      result := Request(path, "POST", data, headers, encode, response);
    }

    /** put: a PUT request, data in the body. */
    method Put(path: string, data: Entries, headers: seq<string>,
               encode: Entries -> string, response: Response) returns (result: Response)
      modifies http
      ensures http.options == RequestOptions(old(http.options), root, path, "PUT", data, headers, encode)
      ensures http.options[Url] == Text(root + path)
      ensures PostFields in http.options && http.options[PostFields] == Text(if data != [] then encode(data) else "")
      ensures result == response
    {
      QueryVerbs();
      result := Request(path, "PUT", data, headers, encode, response);
    }

    /** delete: a DELETE request, data in the query string. */
    method Delete(path: string, data: Entries, headers: seq<string>,
                  encode: Entries -> string, response: Response) returns (result: Response)
      modifies http
      ensures http.options == RequestOptions(old(http.options), root, path, "DELETE", data, headers, encode)
      ensures http.options[Url] == Text(root + path + if data != [] then "?" + encode(data) else "")
      ensures PostFields in http.options <==> PostFields in old(http.options)
      ensures PostFields in old(http.options) ==>
                PostFields in http.options && http.options[PostFields] == old(http.options)[PostFields]
      ensures result == response
    {
      QueryVerbs();
      result := Request(path, "DELETE", data, headers, encode, response);
    }
  }
}
