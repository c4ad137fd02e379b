/** Build, tag, push: the image builder's local store, the registries it pushes to and the host
    configuration it installs for the time of a build. Every external call may fail. */
module Driver {
  import opened BuildTypes
  import Credentials

  datatype LocalImage = LocalImage(digest: string, size: nat)

  /** How registries are reached: the credentials to log in with, and whether over plain HTTP. */
  datatype Hosts = Hosts(credentials: string -> Credential, plainHTTP: string -> bool)

  /** What BuildKit is answered in a build or push: by the session, and by the registry hosts. */
  datatype Access = Access(session: string -> Credential, hosts: Hosts)

  /** What a registry received, and the answers that were on offer at that moment. */
  datatype Pushed = Pushed(image: string, target: LocalImage, access: Access)

  /** A build: its name, the answers on offer, and the image it stored under the name, unless it failed. */
  datatype Solved = Solved(image: string, access: Access, stored: Option<LocalImage>)

  datatype Options = Options(
    registries: seq<Credentials.RegistryConfig>,
    pushRegistries: seq<string>,
    imageName: string,
    sizeLimit: nat)

  datatype Image = Image(urls: seq<string>, size: nat)

  /** The getters keep the client, not the lookups the client has at that time. Sessions get the one for
      credentials, the controller, its worker and every push the one for registry hosts. */
  datatype CredentialsGetter = CredentialsGetter(client: Client)
  datatype HostsGetter = HostsGetter(client: Client)

  /** A session's answers: Docker Hub is asked for under another name. */
  function Aliased(credentials: string -> Credential): string -> Credential {
    host => credentials(Credentials.SessionHost(host))
  }

  /** Reference normalization: full name with tag, or None for a name that does not parse. */
  ghost predicate Normalizes(parse: string -> Option<string>) {
    forall name :: parse(name).Some? ==> parse(parse(name).value) == parse(name)
  }

  /** The registries `registries[..n]` received one and the same image, in order. */
  ghost predicate PushedInOrder(log: seq<Pushed>, parse: string -> Option<string>, registries: seq<string>,
                                imageName: string, n: nat, img: LocalImage) {
    && n <= |registries| && |log| == n
    && forall i :: 0 <= i < n ==>
         log[i].target == img && parse(registries[i] + "/" + imageName) == Some(log[i].image)
  }

  /** The URLs are those of the first registries, in order. */
  ghost predicate URLsOf(urls: seq<string>, parse: string -> Option<string>, registries: seq<string>,
                         imageName: string) {
    && |urls| <= |registries|
    && forall i :: 0 <= i < |urls| ==> Some(urls[i]) == parse(registries[i] + "/" + imageName)
  }

  lemma URLsNext(urls: seq<string>, parse: string -> Option<string>, registries: seq<string>, imageName: string,
                 url: string)
    requires URLsOf(urls, parse, registries, imageName) && |urls| < |registries|
    requires Some(url) == parse(registries[|urls|] + "/" + imageName)
    ensures URLsOf(urls + [url], parse, registries, imageName)
  {
  }

  /** Since `base`, the first n registries received `img`, with these answers on offer. */
  ghost predicate Progress(base: seq<Pushed>, log: seq<Pushed>, parse: string -> Option<string>, opts: Options,
                           n: nat, img: LocalImage, access: Access) {
    && base <= log && PushedInOrder(log[|base|..], parse, opts.pushRegistries, opts.imageName, n, img)
    && forall i :: |base| <= i < |log| ==> log[i].access == access
  }

  lemma ProgressStep(base: seq<Pushed>, log: seq<Pushed>, parse: string -> Option<string>, opts: Options,
                     n: nat, img: LocalImage, image: string, access: Access)
    requires Progress(base, log, parse, opts, n, img, access)
    requires n < |opts.pushRegistries| && parse(opts.pushRegistries[n] + "/" + opts.imageName) == Some(image)
    ensures Progress(base, log + [Pushed(image, img, access)], parse, opts, n + 1, img, access)
  {
    var log' := log + [Pushed(image, img, access)];
    assert log'[|base|..] == log[|base|..] + [Pushed(image, img, access)];
  }

  /** The build was for the first registry, and it stored this image. */
  ghost predicate BuiltAs(solved: Solved, parse: string -> Option<string>, registries: seq<string>,
                          imageName: string, img: LocalImage) {
    registries != [] && parse(registries[0] + "/" + imageName) == Some(solved.image) && solved.stored == Some(img)
  }

  /** Some image name does not parse. */
  ghost predicate Unnameable(parse: string -> Option<string>, registries: seq<string>, imageName: string) {
    exists i :: 0 <= i < |registries| && parse(registries[i] + "/" + imageName).None?
  }

  /** The build made since then stored an image over the limit; 0 stands for no limit. */
  ghost predicate TooLarge(solved: seq<Solved>, solved': seq<Solved>, limit: nat) {
    && limit > 0 && |solved| < |solved'|
    && solved'[|solved|].stored.Some? && solved'[|solved|].stored.value.size > limit
  }

  /** Session and registry hosts answer from the registry list in `opts`. */
  ghost predicate Offers(access: Access, opts: Options) {
    && (forall host :: access.session(host) ==
                       Credentials.Lookup(opts.registries, Credentials.SessionHost(host)).credential)
    && (forall host :: access.hosts.credentials(host) == Credentials.Lookup(opts.registries, host).credential)
    && (forall host :: access.hosts.plainHTTP(host) == Credentials.Lookup(opts.registries, host).nonSSL)
  }

  class Client {
    const parse: string -> Option<string>

    var hostCredentials: string -> Credential
    var registryHosts: Hosts
    var controller: Option<HostsGetter>  // created by the first build and kept
    var images: map<string, LocalImage>
    var solved: seq<Solved>
    var pushed: seq<Pushed>
    ghost var faults: nat  // calls to BuildKit, the stores and the registries that have failed

    constructor (parse: string -> Option<string>)
      requires Normalizes(parse)
      ensures Valid() && IsReset() && this.parse == parse && solved == [] && pushed == []
    {
      this.parse := parse;
      hostCredentials := host => ANONYMOUS;
      registryHosts := Hosts(host => ANONYMOUS, host => false);
      controller, images, solved, pushed, faults := None, map[], [], [], 0;
    }

    /** The long-lived controller asks this very client. */
    ghost predicate Valid()
      reads this
    {
      Normalizes(parse) && (controller.Some? ==> controller.value.client == this)
    }

    ghost predicate IsReset()
      reads this
    {
      && (forall host :: hostCredentials(host) == ANONYMOUS)
      && (forall host :: registryHosts.credentials(host) == ANONYMOUS)
      && (forall host :: !registryHosts.plainHTTP(host))
    }

    /** What a session and a hosts getter answer now. */
    ghost function Current(): Access
      reads this`hostCredentials, this`registryHosts
    {
      Access(Aliased(hostCredentials), registryHosts)
    }

    method ConfigureHosts(credentials: string -> Credential, matchNonSSL: string -> bool)
      modifies this`hostCredentials, this`registryHosts
      ensures hostCredentials == credentials && registryHosts == Hosts(credentials, matchNonSSL)
    {
      hostCredentials := credentials;
      registryHosts := Hosts(credentials, matchNonSSL);
    }

    method ResetHostConfigurations()
      modifies this`hostCredentials, this`registryHosts
      ensures IsReset()
    {
      registryHosts := Hosts(host => ANONYMOUS, host => false);
      hostCredentials := host => ANONYMOUS;
    }

    method Session() returns (session: CredentialsGetter)
      ensures session.client == this
    {
      return CredentialsGetter(this);
    }

    /** A call to the outside. */
    method Call() returns (ok: bool)
      modifies this`faults
      ensures faults == old(faults) + if ok then 0 else 1
    {
      ok := *;
      if !ok { faults := faults + 1; }
    }

    /** A build: on success some image is stored under the name. Credentials are asked for through the
        session, and registries reached through the getter the controller was created with. */
    method Solve(session: CredentialsGetter, image: string) returns (ok: bool)
      requires Valid() && session.client == this
      modifies this`controller, this`images, this`solved, this`faults
      ensures Valid()
      ensures faults == old(faults) + if ok then 0 else 1
      ensures solved == old(solved) || solved == old(solved) + [Solved(image, Current(), None)] || ok
      ensures ok ==> image in images && solved == old(solved) + [Solved(image, Current(), Some(images[image]))]
      ensures forall name :: name != image ==>
                (name in images <==> name in old(images)) && (name in images ==> images[name] == old(images)[name])
    {
      ok := Call();
      if !ok { return; }
      if controller.None? { controller := Some(HostsGetter(this)); }
      var answers := Access(Aliased(session.client.hostCredentials), controller.value.client.registryHosts);
      ok := Call();
      var target: LocalImage := *;
      if ok { images := images[image := target]; }
      solved := solved + [Solved(image, answers, if ok then Some(target) else None)];
    }

    /** Points `dest` at the image of `src`, whether `dest` exists or not. */
    method TagImage(src: string, dest: string) returns (ok: bool)
      modifies this`images, this`faults
      ensures faults >= old(faults)
      ensures ok <==> faults == old(faults) && parse(src).Some? && parse(dest).Some? && parse(src).value in old(images)
      ensures images == if ok then old(images)[parse(dest).value := old(images)[parse(src).value]] else old(images)
    {
      if parse(src).None? || parse(dest).None? { return false; }
      var from, to := parse(src).value, parse(dest).value;
      if from !in images { return false; }
      ok := Call();
      if ok { images := images[to := images[from]]; }
    }

    /** Pushes what the local store holds under the name. A failing push may have landed. */
    method PushImage(session: CredentialsGetter, image: string) returns (ok: bool)
      requires session.client == this
      modifies this`pushed, this`faults
      ensures faults >= old(faults)
      ensures ok <==> faults == old(faults) && parse(image).Some? && parse(image).value in images
      ensures ok ==> pushed != old(pushed)
      ensures pushed == old(pushed) ||
              (parse(image).Some? && parse(image).value in images &&
               pushed == old(pushed) + [Pushed(parse(image).value, images[parse(image).value], Current())])
    {
      if parse(image).None? || parse(image).value !in images { return false; }
      var name := parse(image).value;
      var getter := HostsGetter(this);
      var answers := Access(Aliased(session.client.hostCredentials), getter.client.registryHosts);
      ok := Call();
      if !ok { return; }
      pushed := pushed + [Pushed(name, images[name], answers)];
      ok := Call();
    }

    /** The size of a stored image, unless it exceeds a non-zero limit. */
    method ValidateImageSize(image: string, limit: nat) returns (r: Result<nat>)
      modifies this`faults
      ensures faults >= old(faults)
      ensures r.Ok? <==>
                && faults == old(faults) && parse(image).Some? && parse(image).value in images
                && (limit == 0 || images[parse(image).value].size <= limit)
      ensures r.Ok? ==> r.value == images[parse(image).value].size
    {
      var ok := Call();
      if !ok || parse(image).None? || parse(image).value !in images { return Err; }
      var size := images[parse(image).value].size;
      if limit > 0 && size > limit { return Err; }
      return Ok(size);
    }
  }

  class Builder {
    const bk: Client

    constructor (bk: Client)
      ensures this.bk == bk
    {
      this.bk := bk;
    }

    /** Builds the image for the first registry and pushes it to all. `img` is the image the build stored,
        `n` the number of registries that received it. On success that is all of them; on
        failure the first n. It fails exactly for an empty push list, a name that does not parse, a failing
        call to the outside and an image over the limit. Whatever happens, the host configuration lasts no longer
        than the call. */
    method BuildAndPush(opts: Options) returns (r: Result<Image>, ghost img: LocalImage, ghost n: nat)
      requires bk.Valid()
      modifies bk
      ensures bk.Valid() && bk.faults >= old(bk.faults)
      ensures opts.pushRegistries == [] ==> r.Err? && unchanged(bk)
      ensures opts.pushRegistries != [] ==> bk.IsReset()
      ensures old(bk.pushed) <= bk.pushed
      ensures PushedInOrder(bk.pushed[|old(bk.pushed)|..], bk.parse, opts.pushRegistries, opts.imageName, n, img)
      ensures forall i :: |old(bk.pushed)| <= i < |bk.pushed| ==> Offers(bk.pushed[i].access, opts)
      ensures old(bk.solved) <= bk.solved && |bk.solved| <= |old(bk.solved)| + 1
      ensures forall i :: |old(bk.solved)| <= i < |bk.solved| ==> Offers(bk.solved[i].access, opts)
      ensures n > 0 ==>
                && |bk.solved| == |old(bk.solved)| + 1
                && BuiltAs(bk.solved[|old(bk.solved)|], bk.parse, opts.pushRegistries, opts.imageName, img)
      ensures n > 0 && opts.sizeLimit > 0 ==> img.size <= opts.sizeLimit
      ensures r.Err? <==>
                || opts.pushRegistries == [] || Unnameable(bk.parse, opts.pushRegistries, opts.imageName)
                || bk.faults > old(bk.faults) || TooLarge(old(bk.solved), bk.solved, opts.sizeLimit)
      ensures r.Ok? ==>
                && n == |opts.pushRegistries| == |r.value.urls| && r.value.size == img.size
                && URLsOf(r.value.urls, bk.parse, opts.pushRegistries, opts.imageName)
    {
      img, n := LocalImage("", 0), 0;
      if opts.pushRegistries == [] { return Err, img, n; }
      var credentials, matchNonSSL := Credentials.GenerateRegistryFunc(opts.registries);
      bk.ConfigureHosts(credentials, matchNonSSL);
      r, img, n := PushAll(opts, bk.Current());
      bk.ResetHostConfigurations();
    }

    /** Builds and measures the image for the first registry. */
    method BuildHead(opts: Options, head: string) returns (r: Result<nat>)
      requires bk.Valid() && bk.parse(head) == Some(head)
      modifies bk`controller, bk`images, bk`solved, bk`faults
      ensures bk.Valid() && bk.faults >= old(bk.faults)
      ensures old(bk.solved) <= bk.solved && |bk.solved| <= |old(bk.solved)| + 1
      ensures |bk.solved| > |old(bk.solved)| ==> bk.solved[|old(bk.solved)|].access == bk.Current()
      ensures r.Err? <==> bk.faults > old(bk.faults) || TooLarge(old(bk.solved), bk.solved, opts.sizeLimit)
      ensures r.Ok? ==>
                && head in bk.images && r.value == bk.images[head].size
                && bk.solved == old(bk.solved) + [Solved(head, bk.Current(), Some(bk.images[head]))]
    {
      var session := bk.Session();
      var ok := bk.Solve(session, head);
      if !ok { return Err; }
      r := bk.ValidateImageSize(head, opts.sizeLimit);
    }

    /** Tags the head image for a further registry; tagging it with its own name changes nothing. */
    method TagTail(head: string, image: string) returns (ok: bool)
      requires bk.parse(head) == Some(head) && bk.parse(image) == Some(image) && head in bk.images
      modifies bk`images, bk`faults
      ensures bk.faults >= old(bk.faults) && (ok <==> bk.faults == old(bk.faults))
      ensures head in bk.images && bk.images[head] == old(bk.images[head])
      ensures ok ==> image in bk.images && bk.images[image] == bk.images[head]
    {
      ok := bk.TagImage(head, image);
    }

    /** Pushes the image for the next registry. */
    method PushNext(opts: Options, image: string, ghost base: seq<Pushed>, ghost n: nat, ghost img: LocalImage,
                    ghost access: Access)
      returns (ok: bool, ghost n': nat)
      requires n < |opts.pushRegistries| && bk.parse(opts.pushRegistries[n] + "/" + opts.imageName) == Some(image)
      requires bk.Current() == access && bk.parse(image) == Some(image) && image in bk.images && bk.images[image] == img
      requires Progress(base, bk.pushed, bk.parse, opts, n, img, access)
      modifies bk`pushed, bk`faults
      ensures Progress(base, bk.pushed, bk.parse, opts, n', img, access)
      ensures bk.faults >= old(bk.faults) && (ok <==> bk.faults == old(bk.faults))
      ensures n' == n || n' == n + 1
      ensures ok ==> n' == n + 1
    {
      ghost var before := bk.pushed;
      n' := n;
      var session := bk.Session();
      ok := bk.PushImage(session, image);
      if bk.pushed != before {
        ProgressStep(base, before, bk.parse, opts, n, img, image, access);
        n' := n + 1;
      }
    }

    /** Where the loop stands before registry `idx`: all before it hold the head image, which is built, measured
        and stored under its name. */
    ghost predicate Serving(base: seq<Pushed>, solved: seq<Solved>, opts: Options, idx: nat, head: string, size: nat,
                            img: LocalImage, access: Access)
      reads bk
    {
      && bk.Valid() && bk.Current() == access
      && Progress(base, bk.pushed, bk.parse, opts, idx, img, access)
      && bk.solved == (if idx == 0 then solved else solved + [Solved(head, access, Some(img))])
      && (idx > 0 ==>
            && idx <= |opts.pushRegistries| && bk.parse(opts.pushRegistries[0] + "/" + opts.imageName) == Some(head)
            && bk.parse(head) == Some(head) && head in bk.images && bk.images[head] == img && size == img.size
            && (opts.sizeLimit > 0 ==> size <= opts.sizeLimit))
    }

    /** How the loop may stop: some first registries hold one image within the limit. */
    ghost predicate Stopped(base: seq<Pushed>, solved: seq<Solved>, opts: Options, n: nat, img: LocalImage,
                            access: Access)
      reads bk
    {
      && bk.Valid() && Progress(base, bk.pushed, bk.parse, opts, n, img, access)
      && solved <= bk.solved && |bk.solved| <= |solved| + 1
      && (|bk.solved| > |solved| ==> bk.solved[|solved|].access == access)
      && (n > 0 ==> && |bk.solved| == |solved| + 1
                    && BuiltAs(bk.solved[|solved|], bk.parse, opts.pushRegistries, opts.imageName, img)
                    && (opts.sizeLimit > 0 ==> img.size <= opts.sizeLimit))
    }

    /** Why the loop stops before its end. */
    ghost predicate Fails(faults: nat, solved: seq<Solved>, opts: Options)
      reads bk
    {
      || bk.faults > faults || Unnameable(bk.parse, opts.pushRegistries, opts.imageName)
      || TooLarge(solved, bk.solved, opts.sizeLimit)
    }

    /** The loop may stop between two registries. */
    lemma ServingIsStopped(base: seq<Pushed>, solved: seq<Solved>, opts: Options, idx: nat, head: string, size: nat,
                           img: LocalImage, access: Access)
      requires Serving(base, solved, opts, idx, head, size, img, access)
      ensures Stopped(base, solved, opts, idx, img, access)
      ensures idx > 0 ==> !TooLarge(solved, bk.solved, opts.sizeLimit)
    {
    }

    /** The first iteration up to its push. */
    method ServeHead(opts: Options, image: string, ghost base: seq<Pushed>, ghost solved: seq<Solved>,
                     ghost access: Access)
      returns (r: Result<nat>, ghost img: LocalImage)
      requires Serving(base, solved, opts, 0, "", 0, LocalImage("", 0), access) && bk.parse(image) == Some(image)
      modifies bk`controller, bk`images, bk`solved, bk`faults
      ensures bk.faults >= old(bk.faults)
      ensures r.Err? ==> Stopped(base, solved, opts, 0, img, access) && Fails(old(bk.faults), solved, opts)
      ensures r.Ok? ==>
                && bk.Valid() && bk.Current() == access && Progress(base, bk.pushed, bk.parse, opts, 0, img, access)
                && bk.solved == solved + [Solved(image, access, Some(img))] && bk.faults == old(bk.faults)
                && image in bk.images && bk.images[image] == img && r.value == img.size
                && (opts.sizeLimit > 0 ==> r.value <= opts.sizeLimit)
    {
      img := LocalImage("", 0);
      r := BuildHead(opts, image);
      if r.Ok? { img := bk.images[image]; }
    }

    /** A further iteration up to its push. */
    method ServeTail(opts: Options, idx: nat, head: string, ghost size: nat, image: string, ghost base: seq<Pushed>,
                     ghost solved: seq<Solved>, ghost img: LocalImage, ghost access: Access)
      returns (ok: bool)
      requires idx > 0 && Serving(base, solved, opts, idx, head, size, img, access) && bk.parse(image) == Some(image)
      modifies bk`images, bk`faults
      ensures Serving(base, solved, opts, idx, head, size, img, access)
      ensures bk.faults >= old(bk.faults) && (ok <==> bk.faults == old(bk.faults))
      ensures ok ==> image in bk.images && bk.images[image] == img
    {
      ok := TagTail(head, image);
    }

    /** One iteration: builds or tags the image for registry `idx`, and pushes it. */
    method Serve(opts: Options, idx: nat, head: string, size: nat, ghost base: seq<Pushed>, ghost solved: seq<Solved>,
                 ghost img: LocalImage, ghost access: Access)
      returns (image: Option<string>, head': string, size': nat, ghost img': LocalImage, ghost n: nat)
      requires idx < |opts.pushRegistries| && Serving(base, solved, opts, idx, head, size, img, access)
      requires idx == 0 ==> head == "" && size == 0 && img == LocalImage("", 0)
      modifies bk`controller, bk`images, bk`solved, bk`pushed, bk`faults
      ensures bk.faults >= old(bk.faults)
      ensures image.None? ==> Stopped(base, solved, opts, n, img', access) && Fails(old(bk.faults), solved, opts)
      ensures image.Some? ==>
                && n == idx + 1 && image == bk.parse(opts.pushRegistries[idx] + "/" + opts.imageName)
                && Serving(base, solved, opts, n, head', size', img', access) && bk.faults == old(bk.faults)
    {
      head', size', img', n := head, size, img, idx;
      var parsed := bk.parse(opts.pushRegistries[idx] + "/" + opts.imageName);
      if parsed.None? { return None, head', size', img', n; }
      var name := parsed.value;
      if idx == 0 {
        var measured;
        measured, img' := ServeHead(opts, name, base, solved, access);
        if measured.Err? { return None, head', size', img', n; }
        head', size' := name, measured.value;
      } else {
        var ok := ServeTail(opts, idx, head, size, name, base, solved, img, access);
        if !ok { return None, head', size', img', n; }
      }
      var ok;
      ok, n := PushNext(opts, name, base, n, img', access);
      image := if ok then Some(name) else None;
    }

    method PushAll(opts: Options, ghost access: Access) returns (r: Result<Image>, ghost img: LocalImage, ghost n: nat)
      requires bk.Valid() && opts.pushRegistries != [] && bk.Current() == access
      modifies bk`controller, bk`images, bk`solved, bk`pushed, bk`faults
      ensures bk.faults >= old(bk.faults)
      ensures Stopped(old(bk.pushed), old(bk.solved), opts, n, img, access)
      ensures r.Err? <==> Fails(old(bk.faults), old(bk.solved), opts)
      ensures r.Ok? ==>
                && n == |opts.pushRegistries| == |r.value.urls| && r.value.size == img.size
                && URLsOf(r.value.urls, bk.parse, opts.pushRegistries, opts.imageName)
    {
      img, n := LocalImage("", 0), 0;
      var headImg, images, size := "", [], 0;
      for idx := 0 to |opts.pushRegistries|
        invariant n == idx == |images| && bk.faults == old(bk.faults)
        invariant idx == 0 ==> headImg == "" && size == 0 && img == LocalImage("", 0)
        invariant Serving(old(bk.pushed), old(bk.solved), opts, idx, headImg, size, img, access)
        invariant URLsOf(images, bk.parse, opts.pushRegistries, opts.imageName)
      {
        var image;
        image, headImg, size, img, n := Serve(opts, idx, headImg, size, old(bk.pushed), old(bk.solved), img, access);
        if image.None? { return Err, img, n; }
        URLsNext(images, bk.parse, opts.pushRegistries, opts.imageName, image.value);
        images := images + [image.value];
      }
      ServingIsStopped(old(bk.pushed), old(bk.solved), opts, n, headImg, size, img, access);
      return Ok(Image(images, size)), img, n;
    }
  }
}
