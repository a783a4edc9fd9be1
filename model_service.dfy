/**
  The language-model service as a scripted oracle: it answers the n-th
  request with the n-th reply of its script, whatever the request says, and
  keeps a log of the requests it received. Once the script is used up it
  raises, as a transport error would.
 */
module ModelService {
  import opened Api

  const ScriptExhausted: string := "model service: no scripted reply left"

  /** The reply the service gives next. */
  function NextReply(script: seq<Reply>): Reply
  {
    if script == [] then Failure(ScriptExhausted) else script[0]
  }

  /** The script left after one request. */
  function Rest(script: seq<Reply>): seq<Reply>
  {
    if script == [] then [] else script[1..]
  }

  /** The script left after `n` requests. */
  function Drop(script: seq<Reply>, n: nat): seq<Reply>
  {
    if n == 0 then script else Drop(Rest(script), n - 1)
  }

  /** The reply to the request numbered `k` (counting from 0). */
  function ReplyAt(script: seq<Reply>, k: nat): (reply: Reply)
    ensures reply == NextReply(Drop(script, k))
    ensures reply == if k < |script| then script[k] else Failure(ScriptExhausted)
  {
    if k == 0 then NextReply(script)
    else
      var reply := ReplyAt(Rest(script), k - 1);
      assert k < |script| ==> script[1..][k - 1] == script[k];
      reply
  }

  /** After `n` requests the script has lost its first `n` replies, or all of them. */
  lemma {:induction false} DropSlice(script: seq<Reply>, n: nat)
    ensures n <= |script| ==> Drop(script, n) == script[n..]
    ensures n >= |script| ==> Drop(script, n) == []
  {
    if n > 0 {
      DropSlice(Rest(script), n - 1);
      if n <= |script| {
        assert script[1..][n - 1..] == script[n..];
      }
    }
  }

  /** One more request consumes one more reply of the script. */
  lemma {:induction false} DropRest(script: seq<Reply>, n: nat)
    ensures Rest(Drop(script, n)) == Drop(script, n + 1)
  {
    if n > 0 {
      DropRest(Rest(script), n - 1);
    }
  }

  /** Consuming replies in two steps is consuming them at once. */
  lemma {:induction false} DropDrop(script: seq<Reply>, m: nat, n: nat)
    ensures Drop(Drop(script, m), n) == Drop(script, m + n)
  {
    if m > 0 {
      DropDrop(Rest(script), m - 1, n);
    }
  }

  class ScriptedClient {
    var script: seq<Reply>
    var requests: seq<Request>

    constructor (script: seq<Reply>)
      ensures this.script == script && requests == []
    {
      this.script := script;
      requests := [];
    }

    /** Receives one request and answers it with the next scripted reply. */
    method Create(request: Request) returns (reply: Reply)
      modifies this
      ensures reply == NextReply(old(script))
      ensures script == Rest(old(script))
      ensures requests == old(requests) + [request]
    {
      reply := NextReply(script);
      script := Rest(script);
      requests := requests + [request];
    }
  }
}
