/** buildtools/getprotoc.go: which entries of the protoc release archive are
    extracted, the download URL, and the extraction loop of main. The
    download, the zip reader and the file writes are opaque. */
module GetProtoc {
  import opened GoLib

  const Version: string := "3.11.4"
  /** protocURLTemplate, the GitHub release download address of the
      protobuf project, written as its pieces: the fixed head, then three
      `%s` verbs (version, version, OS) separated by literal text. */
  const ProtocURLTemplate: string := URLHead + "%s" + "/protoc-" + "%s" + "-" + "%s" + "-x86_64.zip"
  const URLHead: string := "https://" + "github.com/" + "protocolbuffers/" + "protobuf/" + "releases/" + "download/v"
  const ProtocZipPath: string := "bin/protoc"
  const IncludeZipPath: string := "include/"

  const GoosToProtocOS: map<string, string> := map["darwin" := "osx", "linux" := "linux"]

  /** `goosToProtocOS[runtime.GOOS]`, where a missing key reads as "":
      darwin maps to the osx archive, linux to the linux one, any other OS
      to the empty name. */
  function ProtocOS(goos: string): (os: string)
    ensures os == "osx" <==> goos == "darwin"
    ensures os == "linux" <==> goos == "linux"
    ensures os == "" <==> goos != "darwin" && goos != "linux"
  {
    if goos in GoosToProtocOS then GoosToProtocOS[goos] else ""
  }

  /** shouldExtract: not a directory entry, and either the compiler or a
      file under include/. */
  predicate ShouldExtract(name: string)
    ensures ShouldExtract(name) ==>
      || name == ProtocZipPath
      || (|name| > |IncludeZipPath| && name[..|IncludeZipPath|] == IncludeZipPath && name[|name| - 1] != '/')
  {
    !HasSuffix(name, "/") && (name == ProtocZipPath || HasPrefix(name, IncludeZipPath))
  }

  /** The names extracted are exactly bin/protoc and include/ followed by a
      non-empty path that does not end in "/": directory entries,
      include/ itself and everything outside those two are skipped. */
  lemma ShouldExtractExactly(name: string)
    ensures ShouldExtract(name) <==>
      || name == ProtocZipPath
      || exists rest :: name == IncludeZipPath + rest && rest != [] && rest[|rest| - 1] != '/'
  {
    if HasPrefix(name, IncludeZipPath) && !HasSuffix(name, "/") {
      var rest := name[|IncludeZipPath|..];
      assert name == IncludeZipPath + rest;
      assert name[|name| - 1..] == [name[|name| - 1]];
    }
    if exists rest :: name == IncludeZipPath + rest && rest != [] && rest[|rest| - 1] != '/' {
      var rest :| name == IncludeZipPath + rest && rest != [] && rest[|rest| - 1] != '/';
      assert name[..|IncludeZipPath|] == IncludeZipPath;
      assert name[|name| - 1..] == [rest[|rest| - 1]];
    }
    if HasSuffix(name, "/") {
      assert name[|name| - 1] == '/';
    }
  }

  /** The points of the characterization one by one: no directory entry is
      extracted, the compiler and files under include/ are, include/ itself
      is not. */
  lemma ShouldExtractCases(dir: string, file: string)
    requires HasSuffix(dir, "/") && file != [] && file[|file| - 1] != '/'
    ensures !ShouldExtract(dir)
    ensures ShouldExtract(ProtocZipPath) && !ShouldExtract(IncludeZipPath)
    ensures ShouldExtract(IncludeZipPath + file)
  {
    ShouldExtractExactly(IncludeZipPath + file);
    assert HasSuffix(IncludeZipPath, "/");
  }

  /** The URL main downloads: the template with the version twice and the
      mapped OS name. */
  function ProtocURL(goos: string): (url: string)
    ensures url == URLHead + Version + "/protoc-" + Version + "-" + ProtocOS(goos) + "-x86_64.zip"
  {
    URLHeadHasNoVerb();
    SprintfThree(URLHead, "/protoc-", "-", "-x86_64.zip", Version, Version, ProtocOS(goos));
    SprintfS(ProtocURLTemplate, [Version, Version, ProtocOS(goos)])
  }

  lemma URLHeadHasNoVerb()
    ensures NoPercent(URLHead)
  {
    NoPercentConcat("https://", "github.com/");
    NoPercentConcat("https://" + "github.com/", "protocolbuffers/");
    NoPercentConcat("https://" + "github.com/" + "protocolbuffers/", "protobuf/");
    NoPercentConcat("https://" + "github.com/" + "protocolbuffers/" + "protobuf/", "releases/");
    NoPercentConcat("https://" + "github.com/" + "protocolbuffers/" + "protobuf/" + "releases/", "download/v");
  }

  /** A template of three `%s` verbs between verb-free texts, given three
      arguments, is the texts with the arguments in between, in order. */
  lemma {:induction false} SprintfThree(h: string, m1: string, m2: string, t: string, x: string, y: string, z: string)
    requires NoPercent(h) && NoPercent(m1) && NoPercent(m2) && NoPercent(t)
    ensures SprintfS(h + "%s" + m1 + "%s" + m2 + "%s" + t, [x, y, z]) == h + x + m1 + y + m2 + z + t
  {
    var r2 := m2 + "%s" + t;
    var r1 := m1 + "%s" + r2;
    var template := h + "%s" + m1 + "%s" + m2 + "%s" + t;
    assert template == h + "%s" + r1;
    var s3 := SprintfS(t, []);
    SprintfLiteral(t, "", []);
    assert t + "" == t;
    assert s3 == t;
    var s2 := SprintfS(r2, [z]);
    SprintfVerb(m2, t, z, []);
    assert [z] + [] == [z];
    assert s2 == m2 + z + t;
    var s1 := SprintfS(r1, [y, z]);
    SprintfVerb(m1, r2, y, [z]);
    assert [y] + [z] == [y, z];
    assert s1 == m1 + y + s2;
    SprintfVerb(h, r1, x, [y, z]);
    assert [x] + [y, z] == [x, y, z];
    assert SprintfS(template, [x, y, z]) == h + x + s1;
  }

  /** The archive entries that pass the filter, in archive order. */
  function Selected(names: seq<string>): (r: seq<string>)
    ensures forall k :: 0 <= k < |r| ==> ShouldExtract(r[k]) && r[k] in names
    ensures forall k :: 0 <= k < |names| && ShouldExtract(names[k]) ==> names[k] in r
    ensures |r| <= |names|
  {
    if names == [] then []
    else
      assert forall k :: 1 <= k < |names| ==> names[k] == names[1..][k - 1];
      (if ShouldExtract(names[0]) then [names[0]] else []) + Selected(names[1..])
  }

  /** The selection keeps archive order: the entries kept from an earlier
      part of the archive come before those kept from a later part. */
  lemma {:induction false} SelectedKeepsOrder(front: seq<string>, back: seq<string>)
    ensures Selected(front + back) == Selected(front) + Selected(back)
  {
    if front == [] {
      assert front + back == back;
    } else {
      assert (front + back)[0] == front[0];
      assert (front + back)[1..] == front[1..] + back;
      SelectedKeepsOrder(front[1..], back);
    }
  }

  /** What the loop did: the entries it tried to extract, and whether an
      extraction failed (main panics on the first failure). */
  datatype Extraction = Extraction(attempted: seq<string>, panicked: bool)

  function Prepend(done: seq<string>, e: Extraction): Extraction
  {
    Extraction(done + e.attempted, e.panicked)
  }

  /** The loop over zipReader.File, with `fails` telling which entries
      extractFromZip fails on: at most one attempt per entry, and a run that
      panicked did so on its last attempt. */
  function Attempts(names: seq<string>, fails: string -> bool): (e: Extraction)
    ensures |e.attempted| <= |names|
    ensures e.panicked ==> |e.attempted| > 0 && fails(e.attempted[|e.attempted| - 1])
  {
    if names == [] then Extraction([], false)
    else if !ShouldExtract(names[0]) then Attempts(names[1..], fails)
    else if fails(names[0]) then Extraction([names[0]], true)
    else Prepend([names[0]], Attempts(names[1..], fails))
  }

  /** Extraction is attempted only for entries that pass the filter, in
      archive order: the attempts are a prefix of the selection. */
  lemma {:induction false} AttemptsArePrefix(names: seq<string>, fails: string -> bool)
    ensures Attempts(names, fails).attempted <= Selected(names)
  {
    if names != [] {
      var n := names[0];
      AttemptsArePrefix(names[1..], fails);
      if ShouldExtract(n) {
        assert Selected(names) == [n] + Selected(names[1..]);
      } else {
        assert Selected(names) == Selected(names[1..]);
      }
    }
  }

  /** Without a failure every selected entry is extracted and none failed. */
  lemma {:induction false} CompleteExtraction(names: seq<string>, fails: string -> bool)
    requires !Attempts(names, fails).panicked
    ensures Attempts(names, fails).attempted == Selected(names)
    ensures forall k :: 0 <= k < |Selected(names)| ==> !fails(Selected(names)[k])
  {
    if names != [] {
      var n := names[0];
      var rest := names[1..];
      CompleteExtraction(rest, fails);
      if ShouldExtract(n) {
        var sel := Selected(names);
        assert sel == [n] + Selected(rest);
        assert forall k :: 1 <= k < |sel| ==> sel[k] == Selected(rest)[k - 1];
      }
    }
  }

  /** With a failure the attempts stop at the first selected entry that
      failed: it is the last attempt, and every earlier one succeeded. */
  lemma {:induction false} FirstFailureStops(names: seq<string>, fails: string -> bool)
    requires Attempts(names, fails).panicked
    ensures var a := Attempts(names, fails).attempted;
      && |a| > 0 && fails(a[|a| - 1])
      && forall k :: 0 <= k < |a| - 1 ==> !fails(a[k])
  {
    var n := names[0];
    var rest := names[1..];
    if !ShouldExtract(n) {
      assert Attempts(names, fails) == Attempts(rest, fails);
      FirstFailureStops(rest, fails);
    } else if !fails(n) {
      var e := Attempts(rest, fails);
      assert Attempts(names, fails) == Prepend([n], e);
      FirstFailureStops(rest, fails);
      var a := [n] + e.attempted;
      assert forall k :: 1 <= k < |a| ==> a[k] == e.attempted[k - 1];
    }
  }


  /** main's extraction loop. */
  method ExtractAll(names: seq<string>, fails: string -> bool) returns (attempted: seq<string>, panicked: bool)
    ensures Extraction(attempted, panicked) == Attempts(names, fails)
  {
    attempted, panicked := [], false;
    var i := 0;
    while i < |names| && !panicked
      invariant 0 <= i <= |names|
      invariant !panicked ==> Attempts(names, fails) == Prepend(attempted, Attempts(names[i..], fails))
      invariant panicked ==> Attempts(names, fails) == Extraction(attempted, true)
    {
      var f := names[i];
      assert names[i..][1..] == names[i + 1..];
      if ShouldExtract(f) {
        attempted := attempted + [f];
        if fails(f) {
          panicked := true;
        }
      }
      i := i + 1;
    }
    if !panicked {
      assert names[i..] == [];
      assert attempted + [] == attempted;
    }
  }
}
