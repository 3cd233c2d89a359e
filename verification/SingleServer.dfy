/** The single key/value server: requests carry an id, the server remembers what it answered to an
    id until the clerk reports that it has the answer. */
module SingleServer {
  import opened KvModel

  datatype Kind = PUT | APPEND

  datatype Request = Request(kind: Kind, key: string, value: string, id: int)

  datatype Server = Server(data: map<string, string>, messages: map<int, string>)

  const EMPTY := Server(map[], map[])

  /** A Modify request: done at most once per remembered id. The result is the reply's value. */
  function Modify(sv: Server, req: Request): (Server, string) {
    var before := At(sv.data, req.key);
    match req.kind
    case PUT =>
      if req.id in sv.messages then (sv, "")
      else (Server(sv.data[req.key := req.value], sv.messages[req.id := req.value]), "")
    case APPEND =>
      if req.id in sv.messages then (sv, sv.messages[req.id])
      else (Server(sv.data[req.key := before + req.value], sv.messages[req.id := before]), before)
  }

  /** A Report request: the answer to the id may be forgotten. */
  function Report(sv: Server, id: int): Server {
    sv.(messages := sv.messages - {id})
  }

  // ----- when a repeated request is harmless -----

  datatype Handled = Modified(req: Request) | Reported(id: int)

  function Serve(sv: Server, h: Handled): Server {
    match h
    case Modified(req) => Modify(sv, req).0
    case Reported(id) => Report(sv, id)
  }

  function ServeAll(sv: Server, hs: seq<Handled>): Server
    decreases |hs|
  {
    if hs == [] then sv else Serve(ServeAll(sv, hs[..|hs| - 1]), hs[|hs| - 1])
  }

  /** After its first execution a request is remembered until its id is reported. */
  lemma {:induction false} RememberedIff(sv: Server, req: Request, between: seq<Handled>)
    requires forall i :: 0 <= i < |between| && between[i].Modified? ==> between[i].req.id != req.id
    ensures var later := ServeAll(Modify(sv, req).0, between);
            && (req.id in later.messages <==> Reported(req.id) !in between)
            && (req.id in later.messages ==> later.messages[req.id] == Modify(sv, req).0.messages[req.id])
    decreases |between|
  {
    if between != [] {
      var n := |between| - 1;
      RememberedIff(sv, req, between[..n]);
      assert between == between[..n] + [between[n]];
    }
  }

  /** A second copy of a Modify request changes nothing and gets the first answer exactly if no
      Report of its id was executed in between. */
  lemma LateCopyIff(sv: Server, req: Request, between: seq<Handled>)
    requires req.id !in sv.messages
    requires forall i :: 0 <= i < |between| && between[i].Modified? ==> between[i].req.id != req.id
    ensures var first := Modify(sv, req);
            var later := ServeAll(first.0, between);
            var second := Modify(later, req);
            && (second.0 == later <==> Reported(req.id) !in between)
            && (Reported(req.id) !in between ==> second.1 == first.1)
  {
    RememberedIff(sv, req, between);
    var later := ServeAll(Modify(sv, req).0, between);
    if Reported(req.id) in between {
      assert req.id in Modify(later, req).0.messages;
    }
  }

  /** A copy of an Append that arrives after the Report is executed a second time. */
  lemma LateCopyAppendsTwice()
    ensures var req := Request(APPEND, "k", "x", 1);
            ServeAll(EMPTY, [Modified(req), Reported(1), Modified(req)]).data == map["k" := "xx"]
  {
    var req := Request(APPEND, "k", "x", 1);
    var hs := [Modified(req), Reported(1), Modified(req)];
    assert hs[..2][..1][..0] == [] && hs[..2][..1] == [Modified(req)] && hs[..2] == [Modified(req), Reported(1)];
    var one := ServeAll(EMPTY, hs[..2][..1]);
    assert one == Serve(ServeAll(EMPTY, hs[..2][..1][..0]), Modified(req));
    assert one.data == map["k" := "x"] by { assert "" + "x" == "x"; }
    var two := ServeAll(EMPTY, hs[..2]);
    assert two == Serve(one, Reported(1));
    assert ServeAll(EMPTY, hs) == Serve(two, Modified(req));
    assert "x" + "x" == "xx";
  }

  // ----- the object -----

  class KVServer {
    var data: map<string, string>
    var messages: map<int, string>

    ghost function State(): Server
      reads this
    {
      Server(data, messages)
    }

    constructor ()
      ensures State() == EMPTY
    {
      data, messages := map[], map[];
    }

    method Get(key: string) returns (value: string)
      ensures value == At(data, key)
    {
      value := if key in data then data[key] else "";
    }

    method Put(req: Request, report: bool)
      requires req.kind == PUT
      modifies this
      ensures State() == if report then Report(old(State()), req.id) else Modify(old(State()), req).0
    {
      if report {
        messages := messages - {req.id};
        return;
      }
      if req.id in messages {
        return;
      }
      data := data[req.key := req.value];
      messages := messages[req.id := req.value];
    }

    method Append(req: Request, report: bool) returns (value: string)
      requires req.kind == APPEND
      modifies this
      ensures State() == if report then Report(old(State()), req.id) else Modify(old(State()), req).0
      ensures value == if report then "" else Modify(old(State()), req).1
    {
      value := "";
      if report {
        messages := messages - {req.id};
        return;
      }
      if req.id in messages {
        return messages[req.id];
      }
      var oldValue := if req.key in data then data[req.key] else "";
      value := oldValue;
      data := data[req.key := oldValue + req.value];
      messages := messages[req.id := oldValue];
    }
  }
}
