/** Image references: the one that an appliance tracks for updates, and those that have no source. */
module ImageRefs {
  import opened Strings

  const LATEST := ":latest"
  const DIGEST := "sha256:"
  const LOCAL_REPOSITORY := "unicron-appliance"

  /** The last place of a character, or -1. */
  function LastIndex(s: string, c: char): (i: int)
    ensures -1 <= i < |s| && (i >= 0 ==> s[i] == c)
    ensures forall j :: i < j < |s| ==> s[j] != c
  {
    if s == "" then -1 else if s[|s| - 1] == c then |s| - 1 else LastIndex(s[..|s| - 1], c)
  }

  /** A colon that comes after the last slash begins the tag. */
  function Untagged(ref: string): string {
    if LastIndex(ref, ':') > LastIndex(ref, '/') then ref[..LastIndex(ref, ':')] else ref
  }

  predicate IsDigest(ref: string) {
    DIGEST <= ref
  }

  function LatestImageRef(currentImage: string): string {
    var ref := TrimSpace(currentImage);
    if ref == "" then ""
    else if '@' in ref then Cut(ref, '@').0 + LATEST
    else if IsDigest(ref) then ""
    else Untagged(ref) + LATEST
  }

  function ImageRepository(image: string): string {
    var ref := TrimSpace(image);
    Untagged(if '@' in ref then Cut(ref, '@').0 else ref)
  }

  function TrackedRef(override: string, currentImage: string): string {
    if TrimSpace(override) != "" then TrimSpace(override) else LatestImageRef(currentImage)
  }

  predicate IsLocalOnly(override: string, currentRef: string, trackedRef: string) {
    TrimSpace(override) == "" && (ImageRepository(currentRef) == LOCAL_REPOSITORY || ImageRepository(trackedRef) == LOCAL_REPOSITORY)
  }

  /** A blank image id is like no other. */
  predicate SameImage(a: string, b: string) {
    TrimSpace(a) != "" && TrimSpace(a) == TrimSpace(b)
  }

  /* ----- Tracking what is tracked ----- */

  lemma {:induction false} RightIsPrefix(s: string)
    ensures TrimRight(s) <= s
  {
    if s != "" {
      RightIsPrefix(s[..|s| - 1]);
    }
  }

  lemma TrimmedBegins(s: string)
    ensures TrimSpace(s) != "" ==> !IsSpace(TrimSpace(s)[0])
  {
    LeftIsTrimmed(s);
    RightIsPrefix(TrimLeft(s));
  }

  lemma TaggedIsUntagged(base: string)
    ensures Untagged(base + LATEST) == base
  {
    var ref := base + LATEST;
    assert ref[|base|] == ':' && ref[..|base|] == base;
    forall j | |base| < j < |ref| ensures ref[j] != ':' && ref[j] != '/' {
      assert ref[j] == LATEST[j - |base|];
    }
    assert LastIndex(ref, ':') == |base|;
  }

  lemma NothingToTrim(s: string)
    requires s != "" && !IsSpace(s[0]) && !IsSpace(s[|s| - 1])
    ensures TrimSpace(s) == s
  {
  }

  /** A name that does not begin with a space, tagged as the latest one, is tracked as it is, unless it looks like a digest. */
  lemma LatestOfTagged(base: string)
    requires '@' !in base && (base != "" ==> !IsSpace(base[0]))
    ensures LatestImageRef(base + LATEST) == if IsDigest(base + LATEST) then "" else base + LATEST
  {
    var ref := base + LATEST;
    assert ref[|ref| - 1] == LATEST[|LATEST| - 1] && ref[0] == if base == "" then LATEST[0] else base[0];
    NothingToTrim(ref);
    TaggedIsUntagged(base);
    assert '@' !in LATEST;
  }

  /** The reference that is tracked for the tracked one is that one, exactly if it does not look like a digest. */
  lemma LatestStaysIff(image: string)
    requires LatestImageRef(image) != ""
    ensures LatestImageRef(LatestImageRef(image)) == if IsDigest(LatestImageRef(image)) then "" else LatestImageRef(image)
  {
    var ref := TrimSpace(image);
    TrimmedBegins(image);
    LatestOfTagged(if '@' in ref then Cut(ref, '@').0 else Untagged(ref));
  }

  /** The same whether or not a reference is configured. */
  lemma TrackedStaysIff(override: string, image: string)
    requires TrackedRef(override, image) != ""
    ensures var tracked := TrackedRef(override, image);
      TrackedRef(override, tracked) == if TrimSpace(override) == "" && IsDigest(tracked) then "" else tracked
  {
    if TrimSpace(override) == "" {
      LatestStaysIff(image);
    }
  }

  /* ----- Names, tags and digests ----- */

  /** A repository's name, which may begin with a registry and its port. */
  predicate Repository(name: string) {
    && name != "" && !IsSpace(name[0]) && !IsSpace(name[|name| - 1]) && '@' !in name && !IsDigest(name)
    && LastIndex(name, ':') <= LastIndex(name, '/')
  }

  /** What may follow a name. */
  predicate Suffix(text: string) {
    text != "" && !IsSpace(text[|text| - 1]) && ':' !in text && '/' !in text && '@' !in text
  }

  lemma TagIsCut(name: string, tag: string)
    requires Suffix(tag)
    ensures Untagged(name + ":" + tag) == name
  {
    var ref := name + ":" + tag;
    assert ref[|name|] == ':' && ref[..|name|] == name;
    forall j | |name| < j < |ref| ensures ref[j] != ':' && ref[j] != '/' {
      assert ref[j] == tag[j - |name| - 1];
    }
    assert LastIndex(ref, ':') == |name|;
  }

  lemma Ends(name: string, sep: string, text: string)
    requires Repository(name) && text != "" && !IsSpace(text[|text| - 1])
    ensures TrimSpace(name) == name && TrimSpace(name + sep + text) == name + sep + text
  {
    var ref := name + sep + text;
    assert ref[0] == name[0] && ref[|ref| - 1] == text[|text| - 1];
    NothingToTrim(name);
    NothingToTrim(ref);
  }

  lemma NoAt(name: string, tag: string)
    requires Repository(name) && Suffix(tag)
    ensures '@' !in name + ":" + tag
  {
  }

  lemma RepositoryOfTagged(name: string, tag: string)
    requires Repository(name) && Suffix(tag)
    ensures ImageRepository(name) == name && ImageRepository(name + ":" + tag) == name
  {
    Ends(name, ":", tag);
    TagIsCut(name, tag);
    NoAt(name, tag);
  }

  /** The reference that is tracked for a repository is its latest image, whatever tag it is used with. */
  lemma LatestOfRepository(name: string, tag: string)
    requires Repository(name) && Suffix(tag) && !IsDigest(name + ":" + tag)
    ensures LatestImageRef(name) == name + ":latest" && LatestImageRef(name + ":" + tag) == name + ":latest"
  {
    Ends(name, ":", tag);
    TagIsCut(name, tag);
    NoAt(name, tag);
  }

  /** The same for a reference by digest, and a digest alone is not tracked. */
  lemma LatestOfDigest(name: string, digest: string, image: string)
    requires Repository(name) && digest != "" && !IsSpace(digest[|digest| - 1])
    ensures LatestImageRef(name + "@" + digest) == name + ":latest" && ImageRepository(name + "@" + digest) == name
    ensures TrimSpace(image) == "" || ("sha256:" <= TrimSpace(image) && '@' !in image) ==> LatestImageRef(image) == ""
  {
    Ends(name, "@", digest);
    CutAt(name, '@', digest);
    assert name + "@" + digest == name + ['@'] + digest;
    if '@' !in image {
      TrimmedIsPart(image, '@');
    }
  }

  lemma {:induction false} TrimmedIsPart(s: string, c: char)
    requires c !in s
    ensures c !in TrimSpace(s)
  {
    LeftIsPart(s, c);
    RightIsPrefix(TrimLeft(s));
  }

  lemma {:induction false} LeftIsPart(s: string, c: char)
    requires c !in s
    ensures c !in TrimLeft(s)
  {
    if s != "" {
      LeftIsPart(s[1..], c);
    }
  }

  /** A configured reference is tracked as it is and always has a source; otherwise only the default local image has none. */
  lemma ConfiguredIsTracked(override: string, current: string)
    ensures TrimSpace(override) != "" ==> TrackedRef(override, current) == TrimSpace(override) && !IsLocalOnly(override, current, TrimSpace(override))
    ensures TrimSpace(override) == "" ==> TrackedRef(override, current) == LatestImageRef(current)
  {
  }

  lemma RepositoryOfLatest(name: string)
    requires Repository(name)
    ensures ImageRepository(name + ":latest") == name
  {
    assert name + ":latest" == name + ":" + "latest";
    assert forall i :: 0 <= i < |"latest"| ==> "latest"[i] != ':' && "latest"[i] != '/' && "latest"[i] != '@';
    RepositoryOfTagged(name, "latest");
  }

  /** The default local image, with or without a tag, has no source, and every other repository has one. */
  lemma LocalOnlyIff(name: string, tag: string)
    requires Repository(name) && Suffix(tag) && !IsDigest(name + ":" + tag)
    ensures IsLocalOnly("", name, TrackedRef("", name)) <==> name == "unicron-appliance"
    ensures IsLocalOnly("", name + ":" + tag, TrackedRef("", name + ":" + tag)) <==> name == "unicron-appliance"
  {
    LatestOfRepository(name, tag);
    RepositoryOfTagged(name, tag);
    RepositoryOfLatest(name);
    LocalIff(name, name);
    LocalIff(name, name + ":" + tag);
  }

  lemma LocalIff(name: string, ref: string)
    requires ImageRepository(ref) == name && LatestImageRef(ref) == name + ":latest" && ImageRepository(name + ":latest") == name
    ensures IsLocalOnly("", ref, TrackedRef("", ref)) <==> name == "unicron-appliance"
  {
    ConfiguredIsTracked("", ref);
  }
}
