/**
 * The HTTP values the proxy handles: header lists as the Fetch API's `Headers`
 * hands them out, and the Express response the proxy writes to.
 */
module Http {
  import opened Wrappers

  /** One piece of a streamed body (`Uint8Array`). */
  type Chunk = seq<bv8>

  datatype Header = Header(name: string, value: string)

  predicate IsUpper(c: char) { 'A' <= c <= 'Z' }

  /** `toLowerCase` on the ASCII letters, the only ones an HTTP field name may hold. */
  function LowerChar(c: char): char
  {
    if IsUpper(c) then (c as int + 32) as char else c
  }

  function Lower(s: string): string
  {
    seq(|s|, i requires 0 <= i < |s| => LowerChar(s[i]))
  }

  predicate IsLowerCase(s: string)
  {
    forall i :: 0 <= i < |s| ==> !IsUpper(s[i])
  }

  /** A Fetch `Headers` object keeps one entry per name (repeated fields are combined)
      and hands out names in lower case. `set-cookie`, whose entries `forEach` hands out
      one by one, is the exception; such lists are outside this type. */
  predicate WellFormed(h: seq<Header>)
  {
    && (forall i :: 0 <= i < |h| ==> IsLowerCase(h[i].name))
    && (forall i, j :: 0 <= i < j < |h| ==> h[i].name != h[j].name)
  }

  type FetchHeaders = h: seq<Header> | WellFormed(h) witness []

  /** `headers.get(name)`. */
  function Get(h: seq<Header>, name: string): (r: Option<string>)
    ensures r.Some? <==> Has(h, name)
    ensures r.Some? ==> exists i :: 0 <= i < |h| && h[i] == Header(name, r.value)
  {
    if h == [] then None
    else if h[0].name == name then Some(h[0].value)
    else
      var r := Get(h[1..], name);
      assert r.Some? ==> exists i :: 0 <= i < |h[1..]| && h[1..][i] == Header(name, r.value);
      assert Has(h[1..], name) ==> Has(h, name);
      assert Has(h, name) && h[0].name != name ==> Has(h[1..], name) by {
        if Has(h, name) && h[0].name != name {
          var i :| 0 <= i < |h| && h[i].name == name;
          assert h[1..][i - 1].name == name;
        }
      }
      r
  }

  /** `headers.has(name)`. */
  predicate Has(h: seq<Header>, name: string)
  {
    exists i :: 0 <= i < |h| && h[i].name == name
  }

  /** Express's `res.setHeader` applied to each header in turn, as `forEach` does. */
  function SetAll(m: map<string, string>, h: seq<Header>): map<string, string>
    decreases |h|
  {
    if h == [] then m
    else
      var last := h[|h| - 1];
      SetAll(m, h[..|h| - 1])[last.name := last.value]
  }

  /** What can be observed of an Express `Response`: the status code, the header table,
      the chunks passed to `write`, the text passed to `send`, whether `end` (or `send`)
      finished it and whether the head has gone out. */
  datatype Reply = Reply(
    status: int,
    headers: map<string, string>,
    written: seq<Chunk>,
    message: Option<string>,
    ended: bool,
    headersSent: bool)

  /** `res.send(text)`: flushes the head, sends the text and finishes the response. */
  function Sent(r: Reply, text: string): Reply
  {
    r.(message := Some(text), ended := true, headersSent := true)
  }

  /** `res.write(chunk)`: the first write flushes the head. */
  function Written(r: Reply, c: Chunk): Reply
  {
    r.(written := r.written + [c], headersSent := true)
  }

  /** `res.end()`. */
  function Ended(r: Reply): Reply
  {
    r.(ended := true, headersSent := true)
  }

  /** A response nothing has been done to yet. */
  function Fresh(): Reply
  {
    Reply(200, map[], [], None, false, false)
  }

  /** `SetAll` leaves every name the list does not mention as it was. */
  lemma {:induction false} SetAllFrame(m: map<string, string>, h: seq<Header>, k: string)
    requires !Has(h, k)
    ensures k in SetAll(m, h) <==> k in m
    ensures k in m ==> SetAll(m, h)[k] == m[k]
    decreases |h|
  {
    if h != [] {
      var init := h[..|h| - 1];
      SetAllFrame(m, init, k);
    }
  }

  /** A header that is the only one of its name in the list ends up in the table with its value. */
  lemma {:induction false} SetAllStores(m: map<string, string>, h: seq<Header>, x: Header)
    requires x in h
    requires forall y :: y in h && y.name == x.name ==> y == x
    ensures x.name in SetAll(m, h) && SetAll(m, h)[x.name] == x.value
    decreases |h|
  {
    var init := h[..|h| - 1];
    assert h == init + [h[|h| - 1]];
    if h[|h| - 1] != x {
      SetAllStores(m, init, x);
    }
  }

  /** On names already in lower case, `toLowerCase` changes nothing. */
  lemma LowerOfLowerCase(s: string)
    requires IsLowerCase(s)
    ensures Lower(s) == s
  {
  }

  /** The response class itself: Express mutates these fields in place. */
  class ClientResponse {
    var status: int
    var headers: map<string, string>
    var written: seq<Chunk>
    var message: Option<string>
    var ended: bool
    var headersSent: bool

    function State(): Reply
      reads this
    {
      Reply(status, headers, written, message, ended, headersSent)
    }

    constructor ()
      ensures State() == Fresh()
    {
      status, headers, written, message, ended, headersSent := 200, map[], [], None, false, false;
    }

    /** `res.status(code)`. */
    method Status(code: int)
      modifies this
      ensures State() == old(State()).(status := code)
    {
      status := code;
    }

    /** `res.setHeader(name, value)`; Node refuses it once the head has gone out. */
    method SetHeader(name: string, value: string)
      requires !headersSent
      modifies this
      ensures State() == old(State()).(headers := old(headers)[name := value])
    {
      headers := headers[name := value];
    }

    /** `res.send(text)`; Express refuses it once the head has gone out. */
    method Send(text: string)
      requires !headersSent
      modifies this
      ensures State() == Sent(old(State()), text)
    {
      message, ended, headersSent := Some(text), true, true;
    }

    /** `res.write(chunk)`. */
    method Write(c: Chunk)
      requires !ended
      modifies this
      ensures State() == Written(old(State()), c)
    {
      written, headersSent := written + [c], true;
    }

    /** `res.end()`. */
    method End()
      requires !ended
      modifies this
      ensures State() == Ended(old(State()))
    {
      ended, headersSent := true, true;
    }
  }
}
