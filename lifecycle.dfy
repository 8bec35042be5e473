/**
 * Creating the game server from the newest active snapshot, and destroying it
 * after taking a fresh snapshot, over the provider of module Cloud.
 *
 * `CreateSpec` and `DestroySpec` say what each does to the provider's state;
 * the methods `Create` and `Destroy` make the provider calls one by one.
 */
module Lifecycle {
  import opened Wrappers
  import opened Cloud
  import opened Scheduler

  datatype Error =
    | NoActiveImage          // unpacking an empty listing
    | MissingLabel(key: string)  // the newest image lacks a label create reads
    | NameTaken              // the provider refuses a second server of the same name
    | NoServer               // there is no server to shut down

  /** The labels a snapshot of `s` is given. */
  function SnapshotLabels(s: Server): map<string, string> {
    map[ServerTypeLabel := s.serverType, DatacenterLabel := s.datacenter, ActiveLabel := ""]
  }

  function CreateSpec(c: CloudState, name: string, ip: string): Result<CloudState, Error> {
    var listing := Listing(c.images);
    if listing == [] then Failure(NoActiveImage)
    else
      var image := listing[0];
      if ServerTypeLabel !in image.labels then Failure(MissingLabel(ServerTypeLabel))
      else if DatacenterLabel !in image.labels then Failure(MissingLabel(DatacenterLabel))
      else if c.server.Some? then Failure(NameTaken)
      else
        var server := Server(name, Running, ip, image.labels[ServerTypeLabel], image.labels[DatacenterLabel]);
        Success(CloudState(
          RemoveIds(c.images, IdsOf(listing)),
          Some(server),
          c.nextId,
          c.log + [ServerCreated(name)] + DeletionLog(listing)))
  }

  function DestroySpec(c: CloudState): Result<CloudState, Error> {
    match c.server
    case None => Failure(NoServer)
    case Some(s) =>
      Success(CloudState(
        c.images + [Image(c.nextId, SnapshotLabels(s))],
        None,
        c.nextId + 1,
        c.log + [ServerShutDown, ImageCreated(c.nextId), ServerDeleted]))
  }

  /** Each failure of create has exactly its cause. */
  lemma CreateErrors(c: CloudState, name: string, ip: string)
    ensures CreateSpec(c, name, ip) == Failure(NoActiveImage) <==>
              forall x :: x in c.images ==> !IsActive(x)
    ensures CreateSpec(c, name, ip) == Failure(NameTaken) ==> c.server.Some?
    ensures c.server.Some? ==> CreateSpec(c, name, ip).Failure?
  {
    ListingMembers(c.images);
    if Listing(c.images) != [] {
      assert Listing(c.images)[0] in Listing(c.images);
    }
  }

  /** A successful create starts a server from the newest active image's type and datacenter labels. */
  lemma CreateUsesNewest(c: CloudState, name: string, ip: string)
    requires WellFormed(c)
    requires CreateSpec(c, name, ip).Success?
    ensures exists i :: 0 <= i < |c.images| && IsActive(c.images[i]) &&
              (forall x :: x in c.images && IsActive(x) ==> x.id <= c.images[i].id) &&
              ServerTypeLabel in c.images[i].labels && DatacenterLabel in c.images[i].labels &&
              CreateSpec(c, name, ip).value.server == Some(Server(name, Running, ip,
                c.images[i].labels[ServerTypeLabel], c.images[i].labels[DatacenterLabel]))
  {
    ListingHeadIsNewest(c.images);
    var head := Listing(c.images)[0];
    var i :| 0 <= i < |c.images| && c.images[i] == head;
  }

  /** After a successful create no active image remains, and every other image does. */
  lemma CreateConsumesActive(c: CloudState, name: string, ip: string)
    requires WellFormed(c)
    requires CreateSpec(c, name, ip).Success?
    ensures var c' := CreateSpec(c, name, ip).value;
      (forall x :: x in c'.images <==> x in c.images && !IsActive(x)) &&
      Listing(c'.images) == [] &&
      WellFormed(c')
  {
    var listing := Listing(c.images);
    var c' := CreateSpec(c, name, ip).value;
    ListingIds(c.images);
    RemoveIdsMembers(c.images, IdsOf(listing));
    RemoveIdsKeepsOrder(c.images, IdsOf(listing));
    ListingOfInactive(c'.images);
    forall i | 0 <= i < |c'.images| ensures c'.images[i].id < c'.nextId {
      assert c'.images[i] in c.images;
    }
  }

  /**
   * A successful destroy adds exactly one image, newest of all, labelled with
   * the server's type and datacenter and `active`; the server is gone, after a
   * shutdown, the snapshot and the deletion, in that order.
   */
  lemma DestroySnapshots(c: CloudState)
    requires WellFormed(c)
    ensures DestroySpec(c).Failure? <==> c.server.None?
    ensures c.server.Some? ==>
      var c' := DestroySpec(c).value;
      var s := c.server.value;
      |c'.images| == |c.images| + 1 && c'.images[..|c.images|] == c.images &&
      var image := c'.images[|c.images|];
      image.labels.Keys == {ServerTypeLabel, DatacenterLabel, ActiveLabel} &&
      image.labels[ServerTypeLabel] == s.serverType && image.labels[DatacenterLabel] == s.datacenter &&
      (forall x :: x in c.images ==> x.id < image.id) &&
      c'.server.None? &&
      c'.log == c.log + [ServerShutDown, ImageCreated(image.id), ServerDeleted] &&
      WellFormed(c')
  {
  }

  /**
   * The label contract between the two: destroying and then creating again
   * brings back a server of the same type in the same datacenter, and leaves
   * no active image behind.
   */
  lemma {:induction false} DestroyThenCreate(c: CloudState, ip: string)
    requires WellFormed(c) && c.server.Some?
    ensures DestroySpec(c).Success?
    ensures var s := c.server.value;
      var c2 := CreateSpec(DestroySpec(c).value, s.name, ip);
      c2.Success? &&
      c2.value.server == Some(Server(s.name, Running, ip, s.serverType, s.datacenter)) &&
      Listing(c2.value.images) == []
  {
    var s := c.server.value;
    var c1 := DestroySpec(c).value;
    var image := Image(c.nextId, SnapshotLabels(s));
    assert Listing(c1.images) == [image] + Listing(c.images) by {
      assert c1.images == c.images + [image];
      assert c1.images[..|c1.images| - 1] == c.images;
    }
    assert image.labels[ServerTypeLabel] == s.serverType && image.labels[DatacenterLabel] == s.datacenter;
    assert WellFormed(c1) by { DestroySnapshots(c); }
    CreateConsumesActive(c1, s.name, ip);
  }

  /** `create()` */
  method Create(cloud: Provider, name: string, ip: string) returns (err: Option<Error>)
    requires cloud.Valid()
    modifies cloud
    ensures cloud.Valid()
    ensures CreateSpec(old(cloud.State()), name, ip).Success? ==>
      err == None && cloud.State() == CreateSpec(old(cloud.State()), name, ip).value
    ensures CreateSpec(old(cloud.State()), name, ip).Failure? ==>
      err == Some(CreateSpec(old(cloud.State()), name, ip).error) && cloud.State() == old(cloud.State())
  {
    ghost var c0 := cloud.State();
    var listing := cloud.ListActive();
    if listing == [] {
      return Some(NoActiveImage);
    }
    var image, rest := listing[0], listing[1..];
    if ServerTypeLabel !in image.labels {
      return Some(MissingLabel(ServerTypeLabel));
    }
    if DatacenterLabel !in image.labels {
      return Some(MissingLabel(DatacenterLabel));
    }
    var created := cloud.CreateServer(name, image.labels[ServerTypeLabel], image.labels[DatacenterLabel], ip);
    if !created {
      return Some(NameTaken);
    }
    cloud.DeleteImage(image.id);
    DeleteEach(cloud, rest);
    CreateSucceeds(c0, name, ip);
    return None;
  }

  /** What a create that gets past every check leaves behind, one deletion after another. */
  lemma CreateSucceeds(c: CloudState, name: string, ip: string)
    requires Listing(c.images) != [] && c.server.None?
    requires ServerTypeLabel in Listing(c.images)[0].labels && DatacenterLabel in Listing(c.images)[0].labels
    ensures var image := Listing(c.images)[0];
      var rest := Listing(c.images)[1..];
      CreateSpec(c, name, ip) == Success(CloudState(
        RemoveIds(RemoveIds(c.images, {image.id}), IdsOf(rest)),
        Some(Server(name, Running, ip, image.labels[ServerTypeLabel], image.labels[DatacenterLabel])),
        c.nextId,
        c.log + [ServerCreated(name)] + [ImageDeleted(image.id)] + DeletionLog(rest)))
  {
    var listing := Listing(c.images);
    var image, rest := listing[0], listing[1..];
    RemoveIdsUnion(c.images, {image.id}, IdsOf(rest));
    assert listing == [image] + rest;
    IdsOfCons(image, rest);
    DeletionLogCons(image, rest);
    assert RemoveIds(c.images, IdsOf(listing)) == RemoveIds(RemoveIds(c.images, {image.id}), IdsOf(rest));
    assert c.log + [ServerCreated(name)] + DeletionLog(listing) ==
           c.log + [ServerCreated(name)] + [ImageDeleted(image.id)] + DeletionLog(rest);
  }

  /** `for old in rest: old.delete()` */
  method DeleteEach(cloud: Provider, images: seq<Image>)
    requires cloud.Valid()
    modifies cloud
    ensures cloud.Valid()
    ensures cloud.State() == old(cloud.State()).(
      images := RemoveIds(old(cloud.images), IdsOf(images)),
      log := old(cloud.log) + DeletionLog(images))
  {
    ghost var c0 := cloud.State();
    RemoveIdsIsIdentity(c0.images);
    assert images[..0] == [] && IdsOf(images[..0]) == {};
    var k := 0;
    while k < |images|
      invariant 0 <= k <= |images|
      invariant cloud.Valid()
      invariant cloud.State() == c0.(
        images := RemoveIds(c0.images, IdsOf(images[..k])),
        log := c0.log + DeletionLog(images[..k]))
    {
      DeletePrefixStep(c0.images, images, k);
      cloud.DeleteImage(images[k].id);
      k := k + 1;
    }
    assert images[..k] == images;
  }

  /** Deleting the next image extends the deleted prefix by one. */
  lemma DeletePrefixStep(images: seq<Image>, deleting: seq<Image>, n: nat)
    requires n < |deleting|
    ensures RemoveIds(RemoveIds(images, IdsOf(deleting[..n])), {deleting[n].id}) ==
            RemoveIds(images, IdsOf(deleting[..n + 1]))
    ensures DeletionLog(deleting[..n]) + [ImageDeleted(deleting[n].id)] == DeletionLog(deleting[..n + 1])
  {
    RemoveIdsUnion(images, IdsOf(deleting[..n]), {deleting[n].id});
    assert deleting[..n + 1] == deleting[..n] + [deleting[n]];
    assert IdsOf(deleting[..n + 1]) == IdsOf(deleting[..n]) + {deleting[n].id};
    assert deleting[..n + 1][..n] == deleting[..n];
  }

  /** `destroy()`: on success, its last statement stops the teardown timer. */
  method Destroy(cloud: Provider, sched: AutoDestroy) returns (err: Option<Error>)
    requires cloud.Valid() && sched.Valid()
    modifies cloud, sched.teardown
    ensures cloud.Valid() && sched.Valid()
    ensures var spec := DestroySpec(old(cloud.State()));
      match spec
      case Success(c') =>
        err == None && cloud.State() == c' && sched.State() == DestroyCompleted(old(sched.State()))
      case Failure(e) =>
        err == Some(e) && cloud.State() == old(cloud.State()) && sched.State() == old(sched.State())
  {
    var server := cloud.GetServer();
    if server.None? {
      return Some(NoServer);
    }
    cloud.Shutdown();
    var id := cloud.CreateImage(SnapshotLabels(server.value));
    cloud.DeleteServer();
    sched.DestroyDone();
    return None;
  }

  /**
   * As written, once any destroy has succeeded (a manual one or the teardown's
   * own), the next failed query arms teardown again; every destroy that
   * teardown launches then fails on the missing server, and the two failed
   * ticks of each period leave it armed: over any number of periods teardown
   * stays armed and fires once per period.
   */
  lemma OrphanedTeardown(c: CloudState, s: SchedulerState, n: nat)
    requires c.server.None?
    ensures var t := Tick(s, QueryFailed(Found(c.server)));
      t.teardownArmed &&
      Run(t, OrphanRounds(n)).teardownArmed && Launches(t, OrphanRounds(n)) == n
    ensures DestroySpec(c) == Failure(NoServer)
  {
    FailedQueryArmsWithoutServer(s, c.server);
    OrphanRoundsKeepTeardown(Tick(s, QueryFailed(Found(c.server))), n);
  }
}
