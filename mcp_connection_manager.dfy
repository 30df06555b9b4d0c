/** The server-side registry of MCP clients by servlet slug
    (packages/tiles-playground/lib/mcp-connection-manager.ts).

    A JavaScript `Map` remembers insertion order: `slugs` is that order and
    `clients` the stored values. Setting an existing slug keeps its place;
    deleting it and setting it again moves it to the end. */
module McpRegistry {
  import opened Common

  /** A stored client value: falsy (`undefined`, `null`, ...), an object
      with a `close` function, or an object without one. */
  datatype AnyClient = Falsy | Closable(handle: nat) | NotClosable(handle: nat)

  predicate IsTruthy(c: AnyClient)
  {
    !c.Falsy?
  }

  predicate Distinct(xs: seq<string>)
  {
    forall i, j :: 0 <= i < j < |xs| ==> xs[i] != xs[j]
  }

  function Without(xs: seq<string>, x: string): (r: seq<string>)
    ensures forall y :: y in r <==> y in xs && y != x
    ensures Distinct(xs) ==> Distinct(r)
    decreases |xs|
  {
    if |xs| == 0 then []
    else if xs[0] == x then Without(xs[1..], x)
    else
      var rest := Without(xs[1..], x);
      assert forall k :: 0 <= k < |rest| ==> rest[k] in xs[1..];
      [xs[0]] + rest
  }

  /** The slugs whose close is called, in the order closing starts. */
  function ClosableSlugs(slugs: seq<string>, clients: map<string, AnyClient>): seq<string>
    requires forall i :: 0 <= i < |slugs| ==> slugs[i] in clients
    decreases |slugs|
  {
    if |slugs| == 0 then []
    else
      var last := slugs[|slugs| - 1];
      ClosableSlugs(slugs[..|slugs| - 1], clients) + (if clients[last].Closable? then [last] else [])
  }

  /** `closeAllConnections` calls `close` on exactly the clients that
      have one, each once. */
  lemma {:induction false} ClosableSlugsExactly(slugs: seq<string>, clients: map<string, AnyClient>)
    requires forall i :: 0 <= i < |slugs| ==> slugs[i] in clients
    ensures forall s :: s in ClosableSlugs(slugs, clients) <==> s in slugs && clients[s].Closable?
    ensures Distinct(slugs) ==> Distinct(ClosableSlugs(slugs, clients))
    decreases |slugs|
  {
    if |slugs| > 0 {
      var init := slugs[..|slugs| - 1];
      ClosableSlugsExactly(init, clients);
      assert slugs == init + [slugs[|slugs| - 1]];
      if Distinct(slugs) {
        assert slugs[|slugs| - 1] !in init;
      }
    }
  }

  /** One row of `getAllConnections`. */
  datatype Listing = Listing(slug: string, connected: bool)

  function Listings(slugs: seq<string>, clients: map<string, AnyClient>): (r: seq<Listing>)
    requires forall i :: 0 <= i < |slugs| ==> slugs[i] in clients
    ensures |r| == |slugs|
    ensures forall i :: 0 <= i < |r| ==> r[i] == Listing(slugs[i], IsTruthy(clients[slugs[i]]))
    decreases |slugs|
  {
    if |slugs| == 0 then []
    else [Listing(slugs[0], IsTruthy(clients[slugs[0]]))] + Listings(slugs[1..], clients)
  }

  class McpConnectionManager {
    var slugs: seq<string>
    var clients: map<string, AnyClient>

    ghost predicate Valid()
      reads this
    {
      Distinct(slugs) && (forall s :: s in clients <==> s in slugs)
    }

    constructor ()
      ensures Valid() && slugs == [] && clients == map[]
    {
      slugs := [];
      clients := map[];
    }

    method SetConnection(slug: string, client: AnyClient)
      requires Valid()
      modifies this
      ensures Valid()
      ensures clients == old(clients)[slug := client]
      ensures slugs == if slug in old(clients) then old(slugs) else old(slugs) + [slug]
    {
      if slug !in clients {
        slugs := slugs + [slug];
      }
      clients := clients[slug := client];
    }

    function GetConnection(slug: string): (r: Option<AnyClient>)
      reads this
      ensures r.Some? <==> slug in clients
      ensures r.Some? ==> r.value == clients[slug]
    {
      Get(clients, slug)
    }

    method RemoveConnection(slug: string) returns (previous: Option<AnyClient>)
      requires Valid()
      modifies this
      ensures Valid()
      ensures previous == Get(old(clients), slug)
      ensures clients == old(clients) - {slug}
      ensures slugs == Without(old(slugs), slug)
    {
      previous := Get(clients, slug);
      clients := clients - {slug};
      slugs := Without(slugs, slug);
    }

    /** Membership, not truthiness: a slug stored with a falsy client is present. */
    function HasConnection(slug: string): (r: bool)
      reads this
      ensures r <==> slug in clients
    {
      slug in clients
    }

    function GetAllConnections(): (r: seq<Listing>)
      requires Valid()
      reads this
      ensures |r| == |slugs|
      ensures forall i :: 0 <= i < |r| ==> r[i].slug == slugs[i] && (r[i].connected <==> IsTruthy(clients[slugs[i]]))
      ensures forall i, j :: 0 <= i < j < |r| ==> r[i].slug != r[j].slug
      ensures forall s :: s in clients <==> exists i :: 0 <= i < |r| && r[i].slug == s
    {
      var r := Listings(slugs, clients);
      assert forall s :: s in slugs ==> exists i :: 0 <= i < |r| && r[i].slug == s by {
        forall s | s in slugs ensures exists i :: 0 <= i < |r| && r[i].slug == s {
          var i :| 0 <= i < |slugs| && slugs[i] == s;
          assert r[i].slug == s;
        }
      }
      r
    }

    /** `closeAllConnections`: attempt `close` on every client that has one
        (a failure is logged and ignored), then clear the map. */
    method CloseAllConnections() returns (closed: seq<string>)
      requires Valid()
      modifies this
      ensures Valid()
      ensures closed == ClosableSlugs(old(slugs), old(clients))
      ensures slugs == [] && clients == map[]
    {
      closed := [];
      var i := 0;
      while i < |slugs|
        invariant 0 <= i <= |slugs|
        invariant closed == ClosableSlugs(slugs[..i], clients)
      {
        assert slugs[..i + 1][..i] == slugs[..i];
        if clients[slugs[i]].Closable? {
          closed := closed + [slugs[i]];
        }
        i := i + 1;
      }
      assert slugs[..i] == slugs;
      slugs := [];
      clients := map[];
    }
  }

  /** After a set, the slug is present with that client and every other
      slug keeps its client; after a remove, the slug is gone. */
  lemma SetThenGet(clients: map<string, AnyClient>, slug: string, client: AnyClient, other: string)
    requires other != slug
    ensures Get(clients[slug := client], slug) == Some(client)
    ensures Get(clients[slug := client], other) == Get(clients, other)
    ensures slug !in clients - {slug}
    ensures Get(clients - {slug}, other) == Get(clients, other)
  {
  }
}
