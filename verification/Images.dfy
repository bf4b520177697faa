// Image references: ParseImageName (pkg/occlient/occlient.go) and ParseComponentImageName
// (pkg/util/util.go), two parsers for the same text.

module Images {
  import opened Results
  import opened Strings

  datatype ImageRef = ImageRef(namespace: string, name: string, tag: string, digest: string)

  const INVALID := Refused("invalid image reference")

  function ParseImageName(image: string): Result<ImageRef> {
    var digestParts := Split(image, '@');
    if |digestParts| == 2 then
      if digestParts[0] != "" && digestParts[1] != "" then
        var nameParts := Split(digestParts[0], '/');
        if |nameParts| == 2 then Ok(ImageRef(nameParts[0], nameParts[1], "", digestParts[1]))
        else Ok(ImageRef("", nameParts[0], "", digestParts[1]))
      else Err(INVALID)
    else if |digestParts| == 1 && digestParts[0] != "" then
      var tagParts := Split(image, ':');
      if |tagParts| == 2 then
        if tagParts[0] != "" then
          var nameParts := Split(tagParts[0], '/');
          if |nameParts| == 2 then Ok(ImageRef(nameParts[0], nameParts[1], tagParts[1], ""))
          else Ok(ImageRef("", tagParts[0], tagParts[1], ""))
        else Err(INVALID)
      else if |tagParts| == 1 then
        var nameParts := Split(tagParts[0], '/');
        if |nameParts| == 2 then Ok(ImageRef(nameParts[0], nameParts[1], "latest", ""))
        else Ok(ImageRef("", tagParts[0], "latest", ""))
      else Err(INVALID)
    else Err(INVALID)
  }

  function ExtractComponentType(s: string): string {
    var parts := Split(s, '/');
    var versioned := if |parts| == 2 then parts[1] else parts[0];
    Split(versioned, ':')[0]
  }

  /** ParseComponentImageName without its first result, which is the text itself: component type,
      component name, component version. */
  datatype ComponentImage = ComponentImage(componentType: string, name: string, version: string)

  function ParseComponentImageName(image: string): ComponentImage {
    if ':' in image then
      var versionSplit := Split(image, ':');
      SplitAloneCounts(image);
      ComponentImage(versionSplit[0], ExtractComponentType(versionSplit[0]), versionSplit[1])
    else ComponentImage(image, ExtractComponentType(image), "latest")
  }

  lemma SplitAloneCounts(image: string)
    ensures ':' in image ==> |Split(image, ':')| >= 2
  {
    SplitAlone(image, ':');
  }

  predicate Free(s: string, banned: set<char>) {
    forall c :: c in s ==> c !in banned
  }

  /** `namespace/name:tag` is parsed back into its parts. */
  lemma TaggedRoundTrip(namespace: string, name: string, tag: string)
    requires Free(namespace, {'@', ':', '/'}) && Free(name, {'@', ':', '/'}) && Free(tag, {'@', ':'})
    ensures ParseImageName(namespace + "/" + name + ":" + tag) == Ok(ImageRef(namespace, name, tag, ""))
  {
    var path := namespace + "/" + name;
    var image := path + ":" + tag;
    SplitAlone(image, '@');
    assert image == path + [':'] + tag;
    SplitAt(path, ':', tag);
    SplitAlone(tag, ':');
    assert path == namespace + ['/'] + name;
    SplitAt(namespace, '/', name);
    SplitAlone(name, '/');
    assert Split(image, ':') == [path, tag];
    assert Split(path, '/') == [namespace, name];
    assert |path| >= 1;
  }

  /** `name@digest` is parsed back into its parts, whatever colons the digest holds. */
  lemma DigestRoundTrip(name: string, digest: string)
    requires name != "" && digest != "" && Free(name, {'@', '/'}) && Free(digest, {'@'})
    ensures ParseImageName(name + "@" + digest) == Ok(ImageRef("", name, "", digest))
  {
    assert name + "@" + digest == name + ['@'] + digest;
    SplitAt(name, '@', digest);
    SplitAlone(digest, '@');
    SplitAlone(name, '/');
  }

  /** The part of a reference before its tag. */
  function Path(image: string): string {
    Split(image, ':')[0]
  }

  /** On every digest-free reference that ParseImageName accepts, the two parsers always agree on the
      version. On the name they agree if and only if the path has at most one slash: with more,
      ParseImageName keeps the whole path while ParseComponentImageName keeps its first part. What
      ParseComponentImageName calls the component type is ParseImageName's name if and only if the path
      does not have exactly one slash: then the namespace is part of the one and not of the other. */
  lemma ParsersAgreeIff(image: string)
    requires ParseImageName(image).Ok? && '@' !in image
    ensures var ref, parsed := ParseImageName(image).value, ParseComponentImageName(image);
            parsed.version == ref.tag &&
            (parsed.name == ref.name <==> |Split(Path(image), '/')| <= 2) &&
            (parsed.componentType == ref.name <==> |Split(Path(image), '/')| != 2)
  {
    SplitAlone(image, '@');
    SplitAlone(image, ':');
    var path := Path(image);
    SplitPieces(image, ':');
    assert ':' !in path;
    var parts := Split(path, '/');
    SplitPieces(path, '/');
    SplitAlone(path, '/');
    if |parts| == 2 {
      assert ':' !in parts[1];
      SplitAlone(parts[1], ':');
      PieceIsNotWhole(path);
    } else {
      assert ':' !in parts[0];
      SplitAlone(parts[0], ':');
    }
  }

  lemma PieceIsNotWhole(path: string)
    requires |Split(path, '/')| == 2
    ensures Split(path, '/')[1] != path
  {
    SplitPieces(path, '/');
    SplitAlone(path, '/');
  }

  /** Three path parts: one parser keeps the whole path, the other its first part. */
  lemma DeepPathDisagrees(a: string, b: string, c: string, tag: string)
    requires Free(a, {'@', ':', '/'}) && Free(b, {'@', ':', '/'}) && Free(c, {'@', ':', '/'}) && Free(tag, {'@', ':'})
    ensures var path := a + "/" + b + "/" + c;
            ParseImageName(path + ":" + tag) == Ok(ImageRef("", path, tag, "")) &&
            ParseComponentImageName(path + ":" + tag) == ComponentImage(path, a, tag)
  {
    var path := a + "/" + b + "/" + c;
    var image := path + ":" + tag;
    SplitAlone(image, '@');
    assert image == path + [':'] + tag;
    SplitAt(path, ':', tag);
    SplitAlone(tag, ':');
    assert image[|path|] == ':' && |path| >= 2;
    DeepPathParts(a, b, c);
    SplitAlone(a, ':');
  }

  lemma DeepPathParts(a: string, b: string, c: string)
    requires '/' !in a && '/' !in b && '/' !in c
    ensures Split(a + "/" + b + "/" + c, '/') == [a, b, c]
  {
    assert a + "/" + b + "/" + c == a + ['/'] + (b + ['/'] + c);
    SplitAt(a, '/', b + ['/'] + c);
    SplitAt(b, '/', c);
    SplitAlone(c, '/');
    assert [a] + ([b] + [c]) == [a, b, c];
  }
}
