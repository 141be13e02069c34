/** Selection of the image files in a directory listing: a name is kept
    when it ends with '.' and one of the supported extensions, in any
    letter case. The listing's order and repetitions are kept. */
module ImageFilter {
  import opened Basics
  import opened Strings

  /** The alternatives of the pattern, all lower case. */
  const ImageExtensions: seq<string> := ["jpg", "jpeg", "png", "webp", "tiff"]

  /** `name` ends with '.' and the extension `e`, ignoring case. */
  predicate EndsWithExtension(name: string, e: string) {
    EndsWithIgnoringCase(name, "." + e)
  }

  /** The pattern `\.(jpg|jpeg|png|webp|tiff)$` matched case-insensitively:
      the match may start anywhere, but must end at the end of the name. */
  predicate IsImageFile(name: string) {
    || EndsWithExtension(name, "jpg")
    || EndsWithExtension(name, "jpeg")
    || EndsWithExtension(name, "png")
    || EndsWithExtension(name, "webp")
    || EndsWithExtension(name, "tiff")
  }

  /** The alternatives of the pattern are exactly the supported extensions. */
  lemma IsImageFileIffSomeExtension(name: string)
    ensures IsImageFile(name) <==> exists e :: e in ImageExtensions && EndsWithExtension(name, e)
  {
  }

  /** What follows the last '.' of `name`, if it has one. */
  function Extension(name: string): (r: Option<string>)
    ensures r.Some? ==> '.' !in r.value && EndsWith(name, "." + r.value)
    ensures r.None? <==> '.' !in name
  {
    match LastIndexOf(name, '.')
    case None => None
    case Some(i) =>
      assert name[i..] == "." + name[i + 1..];
      Some(name[i + 1..])
  }

  /** Every supported extension consists of lower-case ASCII letters. */
  lemma ExtensionsAreLowerLetters(e: string)
    requires e in ImageExtensions
    ensures forall i :: 0 <= i < |e| ==> 'a' <= e[i] <= 'z'
  {
  }

  /** A name that matches has a supported extension after its last '.'. */
  lemma MatchHasSupportedExtension(name: string, e: string)
    requires e in ImageExtensions && EndsWithExtension(name, e)
    ensures Extension(name).Some? && LowerString(Extension(name).value) == e
  {
    ExtensionsAreLowerLetters(e);
    var k := |name| - |e| - 1;
    var folded := LowerString(name[k..]);
    assert folded == LowerString("." + e);
    assert folded[0] == '.';
    assert Lower(name[k]) == '.';
    forall j | k < j < |name|
      ensures name[j] != '.'
    {
      assert Lower(name[j]) == folded[j - k];
      assert folded[j - k] == Lower(e[j - k - 1]);
    }
    var r := LastIndexOf(name, '.');
    assert r.Some? && r.value == k;
    assert LowerString(name[k + 1..]) == e by {
      forall i | 0 <= i < |e|
        ensures LowerString(name[k + 1..])[i] == e[i]
      {
        assert LowerString(name[k + 1..])[i] == folded[i + 1];
        assert folded[i + 1] == Lower(e[i]);
      }
    }
  }

  /** A name whose last extension is supported, in any case, matches. */
  lemma SupportedExtensionMatches(name: string)
    requires Extension(name).Some? && LowerString(Extension(name).value) in ImageExtensions
    ensures IsImageFile(name)
  {
    var x := Extension(name).value;
    var e := LowerString(x);
    ExtensionsAreLowerLetters(e);
    var suffix := "." + e;
    var k := |name| - |x| - 1;
    assert name[k..] == "." + x;
    assert LowerString(name[k..]) == LowerString(suffix) by {
      forall i | 0 <= i < |suffix|
        ensures LowerString(name[k..])[i] == LowerString(suffix)[i]
      {
        if i > 0 {
          assert LowerString(name[k..])[i] == Lower(x[i - 1]) == e[i - 1];
          assert LowerString(suffix)[i] == Lower(e[i - 1]);
        }
      }
    }
    assert EndsWithExtension(name, e);
    IsImageFileIffSomeExtension(name);
  }

  /** Reference characterisation: a name is an image file exactly when it
      has an extension, and that extension, folded to lower case, is one of
      the supported ones. */
  lemma IsImageFileIffExtension(name: string)
    ensures IsImageFile(name) <==>
      Extension(name).Some? && LowerString(Extension(name).value) in ImageExtensions
  {
    if IsImageFile(name) {
      IsImageFileIffSomeExtension(name);
      var e :| e in ImageExtensions && EndsWithExtension(name, e);
      MatchHasSupportedExtension(name, e);
    }
    if Extension(name).Some? && LowerString(Extension(name).value) in ImageExtensions {
      SupportedExtensionMatches(name);
    }
  }

  /** The entries of `files` that name image files, in listing order. */
  function ImageFiles(files: seq<string>): (r: seq<string>)
    ensures |r| <= |files|
    ensures forall f :: f in r <==> f in files && IsImageFile(f)
  {
    if |files| == 0 then []
    else
      assert files == [files[0]] + files[1..];
      (if IsImageFile(files[0]) then [files[0]] else []) + ImageFiles(files[1..])
  }

  /** Each name is kept exactly as often as it is listed if it names an
      image file, and never otherwise: nothing is deduplicated. */
  lemma {:induction false} ImageFilesCounts(files: seq<string>)
    ensures forall f :: multiset(ImageFiles(files))[f] == if IsImageFile(f) then multiset(files)[f] else 0
  {
    if |files| > 0 {
      var head, tail := files[0], files[1..];
      ImageFilesCounts(tail);
      ImageFilesCons(head, tail);
      assert files == [head] + tail;
      assert multiset(files) == multiset([head]) + multiset(tail);
      assert multiset(ImageFiles(files))
        == multiset(if IsImageFile(head) then [head] else []) + multiset(ImageFiles(tail));
    }
  }

  /** `a` can be obtained from `b` by deleting elements. */
  predicate IsSubsequence<T(==)>(a: seq<T>, b: seq<T>)
    decreases |b|
  {
    if |a| == 0 then true
    else if |b| == 0 then false
    else if a[0] == b[0] then IsSubsequence(a[1..], b[1..])
    else IsSubsequence(a, b[1..])
  }

  /** The kept entries appear in the order of the listing. */
  lemma {:induction false} ImageFilesIsSubsequence(files: seq<string>)
    ensures IsSubsequence(ImageFiles(files), files)
  {
    if |files| > 0 {
      ImageFilesIsSubsequence(files[1..]);
      var rest := ImageFiles(files[1..]);
      if IsImageFile(files[0]) {
        assert ImageFiles(files) == [files[0]] + rest;
        assert ([files[0]] + rest)[1..] == rest;
      } else {
        assert ImageFiles(files) == rest;
        SubsequenceOfTail(rest, files);
      }
    }
  }

  /** A subsequence of the tail is a subsequence of the whole. */
  lemma {:induction false} SubsequenceOfTail<T>(a: seq<T>, b: seq<T>)
    requires |b| > 0 && IsSubsequence(a, b[1..])
    ensures IsSubsequence(a, b)
    decreases |b|, |a|
  {
    if |a| > 0 && a[0] == b[0] {
      // the head of `a` is matched against b[0]; what remains of `a` is a
      // subsequence of b[2..]
      if |b| > 1 && a[0] != b[1] {
        assert IsSubsequence(a, b[2..]) by { assert b[1..][1..] == b[2..]; }
        SubsequenceOfTail(a, b[1..]);
      }
      DropHeadOfSubsequence(a, b[1..]);
      assert IsSubsequence(a[1..], b[1..]);
    }
  }

  /** Dropping the first element of a subsequence keeps it a subsequence. */
  lemma {:induction false} DropHeadOfSubsequence<T>(a: seq<T>, b: seq<T>)
    requires |a| > 0 && IsSubsequence(a, b)
    ensures IsSubsequence(a[1..], b)
    decreases |b|, |a|
  {
    if a[0] == b[0] {
      assert IsSubsequence(a[1..], b[1..]);
      if |b| > 0 { SubsequenceOfTail(a[1..], b); }
    } else {
      DropHeadOfSubsequence(a, b[1..]);
      SubsequenceOfTail(a[1..], b);
    }
  }

  /** A listing of image files only passes the filter unchanged. */
  lemma {:induction false} ImageFilesKeepsImages(files: seq<string>)
    requires forall i :: 0 <= i < |files| ==> IsImageFile(files[i])
    ensures ImageFiles(files) == files
  {
    if |files| > 0 {
      ImageFilesKeepsImages(files[1..]);
      assert files == [files[0]] + files[1..];
    }
  }

  /** Filtering twice is filtering once. */
  lemma ImageFilesIdempotent(files: seq<string>)
    ensures ImageFiles(ImageFiles(files)) == ImageFiles(files)
  {
    var r := ImageFiles(files);
    assert forall i :: 0 <= i < |r| ==> r[i] in r;
    ImageFilesKeepsImages(r);
  }

  /** A name is kept when it ends with '.' and a supported extension,
      matched ignoring case. */
  lemma KeptBySuffix(name: string, e: string)
    requires e in ImageExtensions && EndsWithIgnoringCase(name, "." + e)
    ensures IsImageFile(name)
  {
    IsImageFileIffSomeExtension(name);
  }

  lemma AcceptedExamples()
    ensures IsImageFile("a.jpg")
    ensures IsImageFile("c.PNG")
  {
    assert "a.jpg"[1..] == ".jpg";
    assert LowerString(".jpg") == ".jpg";
    KeptBySuffix("a.jpg", "jpg");
    assert "c.PNG"[1..] == ".PNG";
    assert LowerString(".PNG") == ".png";
    assert LowerString(".png") == ".png";
    KeptBySuffix("c.PNG", "png");
  }

  /** A name is dropped when what follows its last '.' is not a
      supported extension in any letter case. */
  lemma DroppedByExtension(name: string, i: nat)
    requires i < |name| && name[i] == '.'
    requires forall j :: i < j < |name| ==> name[j] != '.'
    requires LowerString(name[i + 1..]) !in ImageExtensions
    ensures !IsImageFile(name)
  {
    IsImageFileIffExtension(name);
  }

  lemma AcceptedMixedCase()
    ensures IsImageFile("scan.TiFf")
  {
    assert "scan.TiFf"[4..] == ".TiFf";
    assert LowerString(".TiFf") == ".tiff";
    assert LowerString(".tiff") == ".tiff";
    KeptBySuffix("scan.TiFf", "tiff");
  }

  /** The match may start at the very beginning of the name. */
  lemma AcceptedBareExtension()
    ensures IsImageFile(".webp")
  {
    assert ".webp"[0..] == ".webp";
    assert LowerString(".webp") == ".webp";
    KeptBySuffix(".webp", "webp");
  }

  lemma RejectedTxt()
    ensures !IsImageFile("b.txt")
  {
    assert "b.txt"[2..] == "txt";
    assert LowerString("txt") == "txt";
    DroppedByExtension("b.txt", 1);
  }

  lemma RejectedGif()
    ensures !IsImageFile("d.gif")
  {
    assert "d.gif"[2..] == "gif";
    assert LowerString("gif") == "gif";
    DroppedByExtension("d.gif", 1);
  }

  lemma RejectedTif()
    ensures !IsImageFile("x.tif")
  {
    assert "x.tif"[2..] == "tif";
    assert LowerString("tif") == "tif";
    DroppedByExtension("x.tif", 1);
  }

  /** The filter decides each entry on its own. */
  lemma ImageFilesCons(f: string, rest: seq<string>)
    ensures ImageFiles([f] + rest) == (if IsImageFile(f) then [f] else []) + ImageFiles(rest)
  {
    assert ([f] + rest)[1..] == rest;
  }

  lemma DropsLast(d: string)
    requires !IsImageFile(d)
    ensures ImageFiles([d]) == []
  {
    ImageFilesCons(d, []);
    assert [d] + [] == [d];
  }

  lemma KeepsFirstOfTwo(c: string, d: string)
    requires IsImageFile(c) && !IsImageFile(d)
    ensures ImageFiles([c, d]) == [c]
  {
    DropsLast(d);
    ImageFilesCons(c, [d]);
    assert [c] + [d] == [c, d];
  }

  lemma KeepsSecondOfThree(b: string, c: string, d: string)
    requires !IsImageFile(b) && IsImageFile(c) && !IsImageFile(d)
    ensures ImageFiles([b, c, d]) == [c]
  {
    KeepsFirstOfTwo(c, d);
    ImageFilesCons(b, [c, d]);
    assert [b] + [c, d] == [b, c, d];
  }

  lemma KeepsFirstAndThird(a: string, b: string, c: string, d: string)
    requires IsImageFile(a) && !IsImageFile(b) && IsImageFile(c) && !IsImageFile(d)
    ensures ImageFiles([a, b, c, d]) == [a, c]
  {
    KeepsSecondOfThree(b, c, d);
    ImageFilesCons(a, [b, c, d]);
    assert [a] + [b, c, d] == [a, b, c, d];
  }

  /** A mixed listing keeps its two image files, in order. */
  lemma ListingExample()
    ensures ImageFiles(["a.jpg", "b.txt", "c.PNG", "d.gif"]) == ["a.jpg", "c.PNG"]
  {
    AcceptedExamples();
    RejectedTxt();
    RejectedGif();
    KeepsFirstAndThird("a.jpg", "b.txt", "c.PNG", "d.gif");
  }

  lemma RejectedTrailingSuffix()
    ensures !IsImageFile("x.jpg.bak")
  {
    assert "x.jpg.bak"[6..] == "bak";
    assert LowerString("bak") == "bak";
    DroppedByExtension("x.jpg.bak", 5);
  }
}
