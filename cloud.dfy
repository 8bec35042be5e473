/**
 * An in-memory stand-in for the cloud provider's control plane, as far as the
 * admin panel uses it: one named game server and a store of snapshot images
 * carrying string labels.
 *
 * An image's `id` is allocated from an increasing counter, so it also gives
 * the order in which images were created; the store keeps images oldest first.
 */
module Cloud {
  import opened Wrappers

  datatype Image = Image(id: nat, labels: map<string, string>)

  datatype Server = Server(
    name: string,
    status: string,
    ipv4: string,
    serverType: string,
    datacenter: string)

  /** What the provider was asked to do, in order. */
  datatype Action =
    | ServerCreated(name: string)
    | ServerShutDown
    | ImageCreated(id: nat)
    | ServerDeleted
    | ImageDeleted(id: nat)

  datatype CloudState = CloudState(
    images: seq<Image>,
    server: Option<Server>,
    nextId: nat,
    log: seq<Action>)

  const ActiveLabel := "active"
  const ServerTypeLabel := "server_type"
  const DatacenterLabel := "datacenter"

  /** The status of a server that has booted. */
  const Running := "running"

  /** The label selector "active" matches every image that has the key. */
  predicate IsActive(i: Image) {
    ActiveLabel in i.labels
  }

  ghost predicate Increasing(images: seq<Image>) {
    forall i, j :: 0 <= i < j < |images| ==> images[i].id < images[j].id
  }

  /** Stored oldest first, and every id below the next one to be handed out. */
  ghost predicate WellFormed(c: CloudState) {
    Increasing(c.images) &&
    forall i :: 0 <= i < |c.images| ==> c.images[i].id < c.nextId
  }

  /** The answer to a listing of the active images, newest first. */
  function Listing(images: seq<Image>): seq<Image>
    decreases |images|
  {
    if images == [] then []
    else
      var last := images[|images| - 1];
      (if IsActive(last) then [last] else []) + Listing(images[..|images| - 1])
  }

  /** The listing holds exactly the active images of the store. */
  lemma {:induction false} ListingMembers(images: seq<Image>)
    ensures forall x :: x in Listing(images) <==> x in images && IsActive(x)
    decreases |images|
  {
    if images != [] {
      var prefix := images[..|images| - 1];
      ListingMembers(prefix);
      assert images == prefix + [images[|images| - 1]];
    }
  }

  /** On a store kept in creation order, the head of the listing is the newest active image. */
  lemma {:induction false} ListingHeadIsNewest(images: seq<Image>)
    requires Increasing(images)
    requires Listing(images) != []
    ensures IsActive(Listing(images)[0]) && Listing(images)[0] in images
    ensures forall x :: x in images && IsActive(x) ==> x.id <= Listing(images)[0].id
    decreases |images|
  {
    ListingMembers(images);
    var last := images[|images| - 1];
    var prefix := images[..|images| - 1];
    assert images == prefix + [last];
    if IsActive(last) {
      forall x | x in images
        ensures x.id <= last.id
      {
        var i :| 0 <= i < |images| && images[i] == x;
        assert i < |images| - 1 ==> images[i].id < last.id;
      }
    } else {
      assert Listing(images) == Listing(prefix);
      ListingHeadIsNewest(prefix);
      forall x | x in images && IsActive(x)
        ensures x in prefix
      {
        assert x != last;
      }
    }
  }

  /** On a store kept in creation order, the listing's ids strictly decrease: newest first. */
  lemma {:induction false} ListingNewestFirst(images: seq<Image>)
    requires Increasing(images)
    ensures forall i, j :: 0 <= i < j < |Listing(images)| ==> Listing(images)[i].id > Listing(images)[j].id
    decreases |images|
  {
    if images != [] {
      var last := images[|images| - 1];
      var prefix := images[..|images| - 1];
      assert Increasing(prefix) by {
        forall i, j | 0 <= i < j < |prefix| ensures prefix[i].id < prefix[j].id {
          assert prefix[i] == images[i] && prefix[j] == images[j];
        }
      }
      ListingNewestFirst(prefix);
      if IsActive(last) {
        var rest := Listing(prefix);
        ListingMembers(prefix);
        forall y | y in rest ensures y.id < last.id {
          var k :| 0 <= k < |prefix| && prefix[k] == y;
          assert images[k] == y;
        }
        var l := Listing(images);
        assert l == [last] + rest;
        forall i, j | 0 <= i < j < |l| ensures l[i].id > l[j].id {
          assert l[j] == rest[j - 1];
          if i > 0 {
            assert l[i] == rest[i - 1];
          } else {
            assert rest[j - 1] in rest;
          }
        }
      }
    }
  }

  /** On a store kept in creation order, an image's id is among the listed ids exactly when it is active. */
  lemma ListingIds(images: seq<Image>)
    requires Increasing(images)
    ensures forall x :: x in images ==> (x.id in IdsOf(Listing(images)) <==> IsActive(x))
  {
    ListingMembers(images);
    forall x | x in images && x.id in IdsOf(Listing(images))
      ensures IsActive(x)
    {
      var y :| y in Listing(images) && y.id == x.id;
      var i :| 0 <= i < |images| && images[i] == x;
      var j :| 0 <= j < |images| && images[j] == y;
      assert i == j;
    }
  }

  /** A store without active images lists nothing. */
  lemma {:induction false} ListingOfInactive(images: seq<Image>)
    requires forall x :: x in images ==> !IsActive(x)
    ensures Listing(images) == []
    decreases |images|
  {
    if images != [] {
      var prefix := images[..|images| - 1];
      assert images[|images| - 1] in images;
      forall x | x in prefix ensures x in images {
        var i :| 0 <= i < |prefix| && prefix[i] == x;
        assert images[i] == x;
      }
      ListingOfInactive(prefix);
    }
  }

  /** The store after deleting every image whose id is in `ids`. */
  function RemoveIds(images: seq<Image>, ids: set<nat>): seq<Image>
    decreases |images|
  {
    if images == [] then []
    else (if images[0].id in ids then [] else [images[0]]) + RemoveIds(images[1..], ids)
  }

  lemma {:induction false} RemoveIdsMembers(images: seq<Image>, ids: set<nat>)
    ensures forall x :: x in RemoveIds(images, ids) <==> x in images && x.id !in ids
    decreases |images|
  {
    if images != [] {
      RemoveIdsMembers(images[1..], ids);
      assert images == [images[0]] + images[1..];
    }
  }

  lemma {:induction false} RemoveIdsKeepsOrder(images: seq<Image>, ids: set<nat>)
    requires Increasing(images)
    ensures Increasing(RemoveIds(images, ids))
    decreases |images|
  {
    if images != [] {
      var tail := images[1..];
      assert Increasing(tail) by {
        forall i, j | 0 <= i < j < |tail| ensures tail[i].id < tail[j].id {
          assert tail[i] == images[i + 1] && tail[j] == images[j + 1];
        }
      }
      RemoveIdsKeepsOrder(tail, ids);
      RemoveIdsMembers(tail, ids);
      var rest := RemoveIds(tail, ids);
      forall y | y in rest ensures images[0].id < y.id {
        var j :| 0 <= j < |tail| && tail[j] == y;
        assert images[j + 1] == y;
      }
    }
  }

  /** Deleting no id leaves the store as it was. */
  lemma {:induction false} RemoveIdsIsIdentity(images: seq<Image>)
    ensures RemoveIds(images, {}) == images
    decreases |images|
  {
    if images != [] {
      RemoveIdsIsIdentity(images[1..]);
      assert images == [images[0]] + images[1..];
    }
  }

  /** Deleting one set of ids and then another is deleting their union. */
  lemma {:induction false} RemoveIdsUnion(images: seq<Image>, ids: set<nat>, more: set<nat>)
    ensures RemoveIds(RemoveIds(images, ids), more) == RemoveIds(images, ids + more)
    decreases |images|
  {
    if images != [] {
      RemoveIdsUnion(images[1..], ids, more);
      var rest := RemoveIds(images[1..], ids);
      if images[0].id !in ids {
        var kept := [images[0]] + rest;
        assert RemoveIds(images, ids) == kept;
        assert kept[0] == images[0] && kept[1..] == rest;
        assert RemoveIds(kept, more) ==
          (if images[0].id in more then [] else [images[0]]) + RemoveIds(rest, more);
      } else {
        assert RemoveIds(images, ids) == rest;
        assert RemoveIds(images, ids + more) == RemoveIds(images[1..], ids + more);
      }
    }
  }

  function IdsOf(images: seq<Image>): set<nat> {
    set x | x in images :: x.id
  }

  /** The deletions, in order, of every image in `images`. */
  function DeletionLog(images: seq<Image>): (r: seq<Action>)
    ensures |r| == |images|
    ensures forall k :: 0 <= k < |images| ==> r[k] == ImageDeleted(images[k].id)
    decreases |images|
  {
    if images == [] then []
    else DeletionLog(images[..|images| - 1]) + [ImageDeleted(images[|images| - 1].id)]
  }

  lemma DeletionLogCons(x: Image, rest: seq<Image>)
    ensures DeletionLog([x] + rest) == [ImageDeleted(x.id)] + DeletionLog(rest)
  {
    var l, r := DeletionLog([x] + rest), [ImageDeleted(x.id)] + DeletionLog(rest);
    assert |l| == |r|;
    forall k | 0 <= k < |l| ensures l[k] == r[k] {
      assert ([x] + rest)[k] == if k == 0 then x else rest[k - 1];
    }
  }

  lemma IdsOfCons(x: Image, rest: seq<Image>)
    ensures IdsOf([x] + rest) == {x.id} + IdsOf(rest)
  {
    assert forall y :: y in [x] + rest <==> y == x || y in rest;
  }

  /**
   * The provider's control plane, as an object whose state the API calls change.
   * Only the one server the panel manages is represented.
   */
  class Provider {
    var images: seq<Image>
    var server: Option<Server>
    var nextId: nat
    var log: seq<Action>

    function State(): CloudState
      reads this
    {
      CloudState(images, server, nextId, log)
    }

    ghost predicate Valid()
      reads this
    {
      WellFormed(State())
    }

    constructor (images: seq<Image>, server: Option<Server>, nextId: nat)
      requires WellFormed(CloudState(images, server, nextId, []))
      ensures Valid()
      ensures State() == CloudState(images, server, nextId, [])
    {
      this.images := images;
      this.server := server;
      this.nextId := nextId;
      this.log := [];
    }

    /** `images.get_all(label_selector="active", sort=["created:desc"])` */
    method ListActive() returns (r: seq<Image>)
      requires Valid()
      ensures r == Listing(images)
    {
      r := Listing(images);
    }

    /** `servers.get_by_name(...)`: the managed server, or none. */
    method GetServer() returns (s: Option<Server>)
      ensures s == server
    {
      s := server;
    }

    /** `servers.create(...)`, waiting for the creation and start actions; a taken name is refused. */
    method CreateServer(name: string, serverType: string, datacenter: string, ip: string) returns (ok: bool)
      requires Valid()
      modifies this
      ensures Valid()
      ensures ok <==> old(server).None?
      ensures ok ==> State() == old(State()).(
        server := Some(Server(name, Running, ip, serverType, datacenter)),
        log := old(log) + [ServerCreated(name)])
      ensures !ok ==> State() == old(State())
    {
      ok := server.None?;
      if ok {
        server := Some(Server(name, Running, ip, serverType, datacenter));
        log := log + [ServerCreated(name)];
      }
    }

    /** `image.delete()` */
    method DeleteImage(id: nat)
      requires Valid()
      modifies this
      ensures Valid()
      ensures State() == old(State()).(
        images := RemoveIds(old(images), {id}),
        log := old(log) + [ImageDeleted(id)])
    {
      RemoveIdsKeepsOrder(images, {id});
      RemoveIdsMembers(images, {id});
      images := RemoveIds(images, {id});
      log := log + [ImageDeleted(id)];
    }

    /** `server.shutdown().wait_until_finished()` */
    method Shutdown()
      requires Valid() && server.Some?
      modifies this
      ensures Valid()
      ensures State() == old(State()).(
        server := Some(old(server).value.(status := "off")),
        log := old(log) + [ServerShutDown])
    {
      server := Some(server.value.(status := "off"));
      log := log + [ServerShutDown];
    }

    /** `server.create_image(labels=...)`, waiting for the action; returns the new image's id. */
    method CreateImage(labels: map<string, string>) returns (id: nat)
      requires Valid() && server.Some?
      modifies this
      ensures Valid()
      ensures id == old(nextId)
      ensures State() == old(State()).(
        images := old(images) + [Image(id, labels)],
        nextId := old(nextId) + 1,
        log := old(log) + [ImageCreated(id)])
    {
      id := nextId;
      images := images + [Image(id, labels)];
      nextId := nextId + 1;
      log := log + [ImageCreated(id)];
    }

    /** `server.delete().wait_until_finished()` */
    method DeleteServer()
      requires Valid() && server.Some?
      modifies this
      ensures Valid()
      ensures State() == old(State()).(server := None, log := old(log) + [ServerDeleted])
    {
      server := None;
      log := log + [ServerDeleted];
    }
  }
}
