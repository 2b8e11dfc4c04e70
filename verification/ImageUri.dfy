/** The image of the k8sgpt Deployment: parseImageURI and the staleness test of preAnalysis_step.go. */
module ImageUri {
  import opened Strings

  datatype Image = Image(repository: string, version: string)

  /** A name and its tag, at the first colon. */
  function SplitTag(name: string): Image {
    var i := IndexOf(name, ':');
    if i == |name| then Image(name, "") else Image(name[..i], name[i + 1..])
  }

  /** parseImageURI: the tag is sought after the first slash only. */
  function ParseImageURI(uri: string): Image {
    var i := IndexOf(uri, '/');
    if i < |uri| then
      var name := SplitTag(uri[i + 1..]);
      Image(uri[..i] + (['/'] + name.repository), name.version)
    else SplitTag(uri)
  }

  /** How an image is written: repository, colon, version. */
  function Print(image: Image): string {
    image.repository + ([':'] + image.version)
  }

  // ---------------------------------------------------------------- printing what was parsed

  /** The text is the image as printed, or one without a version that lost at most a trailing colon. */
  predicate Rebuilds(image: Image, text: string) {
    if image.version != "" then text == Print(image) else text == image.repository || text == image.repository + ":"
  }

  lemma SplitTagRebuilds(name: string)
    ensures Rebuilds(SplitTag(name), name)
  {
    var i := IndexOf(name, ':');
    if i < |name| { Cut(name, i); }
  }

  lemma Regroup(registry: string, name: string, tag: string)
    ensures (registry + (['/'] + name)) + tag == registry + (['/'] + (name + tag))
  {
    Assoc(registry, ['/'] + name, tag);
    Assoc(['/'], name, tag);
  }

  lemma BehindSlashRebuilds(registry: string, rest: string)
    ensures Rebuilds(Image(registry + (['/'] + SplitTag(rest).repository), SplitTag(rest).version), registry + (['/'] + rest))
  {
    var name := SplitTag(rest);
    SplitTagRebuilds(rest);
    Regroup(registry, name.repository, [':'] + name.version);
    Regroup(registry, name.repository, ":");
  }

  /** A URI with a non-empty tag is rebuilt from its parts; one without lost at most a trailing colon. */
  lemma ParsedPrintsBack(uri: string)
    ensures Rebuilds(ParseImageURI(uri), uri)
  {
    var i := IndexOf(uri, '/');
    if i < |uri| {
      Cut(uri, i);
      BehindSlashRebuilds(uri[..i], uri[i + 1..]);
    } else {
      SplitTagRebuilds(uri);
    }
  }

  // ---------------------------------------------------------------- parsing what was printed

  /** The part of a repository in which a tag would be sought. */
  function NamePart(repository: string): string {
    var i := IndexOf(repository, '/');
    if i < |repository| then repository[i + 1..] else repository
  }

  /** Images whose written form is unambiguous. */
  predicate Readable(image: Image) {
    ':' !in NamePart(image.repository) && ('/' in image.repository || '/' !in image.version)
  }

  lemma SplitTagOfPrint(name: string, version: string)
    ensures SplitTag(Print(Image(name, version))) == Image(name, version) <==> ':' !in name
  {
    var s := Print(Image(name, version));
    if ':' !in name {
      FirstOccurrence(name, ':', version);
      assert s[..|name|] == name && s[|name| + 1..] == version;
    } else {
      FirstIn(name, ':', [':'] + version);
    }
  }

  /** The first occurrence in a prefix is the first occurrence. */
  lemma FirstIn(a: string, c: char, b: string)
    requires c in a
    ensures IndexOf(a + b, c) == IndexOf(a, c) < |a|
  {
    var s, i := a + b, IndexOf(a, c);
    assert s[i] == c && forall k | 0 <= k < i :: s[k] == a[k];
    assert c in s;
  }

  /** Behind the first slash of the repository the rest is parsed as a name with its tag. */
  lemma ParseBehindSlash(image: Image)
    requires '/' in image.repository
    ensures var i := IndexOf(image.repository, '/');
            var name := SplitTag(Print(Image(NamePart(image.repository), image.version)));
            i < |image.repository|
            && ParseImageURI(Print(image)) == Image(image.repository[..i] + (['/'] + name.repository), name.version)
  {
    var r, v := image.repository, image.version;
    var i := IndexOf(r, '/');
    FirstIn(r, '/', [':'] + v);
    assert Print(image)[..i] == r[..i];
    assert Print(image)[i + 1..] == r[i + 1..] + ([':'] + v);
  }

  lemma SamePrefix(prefix: string, a: string, b: string)
    ensures prefix + (['/'] + a) == prefix + (['/'] + b) <==> a == b
  {
    assert (prefix + (['/'] + a))[|prefix| + 1..] == a;
    assert (prefix + (['/'] + b))[|prefix| + 1..] == b;
  }

  lemma SlashInRepository(image: Image)
    requires '/' in image.repository
    ensures ParseImageURI(Print(image)) == image <==> ':' !in NamePart(image.repository)
  {
    var r, i := image.repository, IndexOf(image.repository, '/');
    ParseBehindSlash(image);
    Cut(r, i);
    SamePrefix(r[..i], SplitTag(Print(Image(NamePart(r), image.version))).repository, NamePart(r));
    SplitTagOfPrint(NamePart(r), image.version);
  }

  lemma SlashInVersion(image: Image)
    requires '/' !in image.repository && '/' in image.version
    ensures ParseImageURI(Print(image)) != image
  {
    var uri := Print(image);
    assert uri[|image.repository| + 1 + IndexOf(image.version, '/')] == '/';
    assert '/' in uri;
    assert forall k | 0 <= k < |image.repository| :: uri[k] == image.repository[k];
    assert IndexOf(uri, '/') > |image.repository|;
    assert |ParseImageURI(uri).repository| > |image.repository|;
  }

  /** Reading back what was written succeeds exactly for readable images. */
  lemma PrintedParsesBackIff(image: Image)
    ensures ParseImageURI(Print(image)) == image <==> Readable(image)
  {
    if '/' in image.repository {
      SlashInRepository(image);
    } else if '/' in image.version {
      SlashInVersion(image);
    } else {
      assert '/' !in Print(image);
      SplitTagOfPrint(image.repository, image.version);
    }
  }

  // ---------------------------------------------------------------- one reconcile pass

  /** The image GetDeployment asks for. */
  function Deployed(wanted: Image): string {
    Print(Image(wanted.repository, if wanted.version == "" then "latest" else wanted.version))
  }

  predicate Stale(uri: string, wanted: Image) {
    ParseImageURI(uri) != wanted
  }

  /** A Deployment as a pass reads it: its image and its resource version. */
  datatype Read = Read(image: string, version: nat)

  /** The stored Deployment, with the version its last effective write gave it. */
  class Deployment {
    var image: string
    var version: nat

    constructor (image: string)
      ensures this.image == image
    {
      this.image, version := image, 0;
    }

    /** A write that changes nothing stores nothing. */
    method Store(image: string)
      modifies this
      ensures this.image == image
      ensures version == if image == old(this.image) then old(version) else old(version) + 1
    {
      if image != this.image {
        this.image, version := image, version + 1;
      }
    }

    /** resources.Sync, in which doSync puts GetDeployment's specification in place of the stored one. */
    method Sync(wanted: Image)
      modifies this
      ensures image == Deployed(wanted)
      ensures version == if Deployed(wanted) == old(image) then old(version) else old(version) + 1
    {
      var tag := wanted.version;
      if tag == "" {
        tag := "latest";
      }
      Store(wanted.repository + ([':'] + tag));
    }

    /** updateDeploymentImage: an update of the Deployment as it was read, refused when it has changed since. */
    method UpdateImage(read: Read, wanted: Image) returns (ok: bool)
      modifies this
      ensures ok == (read.version == old(version))
      ensures image == if ok then Print(wanted) else old(image)
      ensures !ok ==> version == old(version)
    {
      ok := read.version == version;
      if ok {
        Store(wanted.repository + ([':'] + wanted.version));
      }
    }

    /**
     * One pass up to the analysis: read, Sync, and the staleness test on what was read. A pass over a
     * Deployment without ready replicas ends after Sync; one that finds a stale image ends with the update.
     */
    method Reconcile(wanted: Image, ready: bool) returns (analyses: bool)
      modifies this
      ensures analyses == (ready && !Stale(old(image), wanted))
      ensures image == if ready then AfterPass(old(image), wanted) else Deployed(wanted)
    {
      var read := Read(image, version);
      Sync(wanted);
      if !ready {
        return false;
      }
      var current := ParseImageURI(read.image);
      if current.repository != wanted.repository || current.version != wanted.version {
        var ok := UpdateImage(read, wanted);
        return false;
      }
      return true;
    }
  }

  /** The update gets through only when Sync found nothing to do; otherwise Sync's image stays. */
  function AfterPass(image: string, wanted: Image): string {
    if image == Deployed(wanted) && Stale(image, wanted) then Print(wanted) else Deployed(wanted)
  }

  function AfterPasses(image: string, wanted: Image, n: nat): string {
    if n == 0 then image else AfterPass(AfterPasses(image, wanted, n - 1), wanted)
  }

  /** Sync's own image is judged stale exactly when the version is left to default or the image is not readable. */
  lemma {:induction false} DeployedIsStaleIff(wanted: Image)
    ensures Stale(Deployed(wanted), wanted) <==> wanted.version == "" || !Readable(wanted)
  {
    if wanted.version == "" {
      ParsedPrintsBack(Deployed(wanted));
      assert |Deployed(wanted)| == |wanted.repository| + 7;
    } else {
      PrintedParsesBackIff(wanted);
    }
  }

  /** The updated image is judged stale exactly when it is not readable. */
  lemma {:induction false} UpdatedIsStaleIff(wanted: Image)
    ensures Stale(Print(wanted), wanted) <==> !Readable(wanted)
  {
    PrintedParsesBackIff(wanted);
  }

  lemma {:induction false} UpdatedIsDeployedIff(wanted: Image)
    ensures Print(wanted) == Deployed(wanted) <==> wanted.version != ""
  {
    assert |Print(wanted)| == |wanted.repository| + 1 + |wanted.version|;
    if wanted.version == "" { assert |Deployed(wanted)| == |wanted.repository| + 7; }
  }

  /** An image a pass leaves alone on its way to the analysis. */
  predicate Settled(image: string, wanted: Image) {
    AfterPass(image, wanted) == image && !Stale(image, wanted)
  }

  /** Some image settles exactly when a version is asked for and the image is readable, and then it is that image. */
  lemma {:induction false} SettledIff(image: string, wanted: Image)
    ensures Settled(image, wanted) <==> wanted.version != "" && Readable(wanted) && image == Print(wanted)
  {
    DeployedIsStaleIff(wanted);
    UpdatedIsDeployedIff(wanted);
  }

  /** With a version, every image is the wanted one after one pass; whether the analysis is reached is up to readability. */
  lemma {:induction false} VersionSettlesAfterOnePass(image: string, wanted: Image, n: nat)
    requires wanted.version != "" && n >= 1
    ensures AfterPasses(image, wanted, n) == Print(wanted)
    ensures Stale(AfterPasses(image, wanted, n), wanted) <==> !Readable(wanted)
  {
    UpdatedIsDeployedIff(wanted);
    UpdatedIsStaleIff(wanted);
    if n > 1 { VersionSettlesAfterOnePass(image, wanted, n - 1); }
  }

  /**
   * Without a version the image alternates for ever between the default tag and an empty one, whatever
   * it was at first. Passes over the default tag never reach the analysis; passes over the empty tag do
   * exactly when the repository is readable.
   */
  lemma {:induction false} DefaultVersionAlternates(image: string, wanted: Image, n: nat)
    requires wanted.version == "" && n >= 1
    ensures AfterPasses(image, wanted, n) == Deployed(wanted) || AfterPasses(image, wanted, n) == Print(wanted)
    ensures AfterPasses(image, wanted, n + 1) ==
            if AfterPasses(image, wanted, n) == Deployed(wanted) then Print(wanted) else Deployed(wanted)
    ensures AfterPasses(image, wanted, n + 1) != AfterPasses(image, wanted, n)
    ensures Stale(AfterPasses(image, wanted, n), wanted) <==>
            AfterPasses(image, wanted, n) == Deployed(wanted) || !Readable(wanted)
  {
    DeployedIsStaleIff(wanted);
    UpdatedIsStaleIff(wanted);
    UpdatedIsDeployedIff(wanted);
  }
}
