/**
 The media-type classifier of the daemon client (`getMediaType`).

 It is modelled twice. `GetMediaType` follows the source step by step: a
 `reduce` over an ordered table of case-insensitive `\.(ext|...)$` patterns
 whose accumulator starts as the file name, and a content-type branch that
 takes the leading run of characters other than `/`. It returns the string
 the source returns. `Classify` is the reference reading: the lower-cased
 text after the last `.` of the file name picks the first group that lists
 it. `ClassifyMatchesSource` proves the two agree on every input.
 */
module MediaTypes {
  import opened JsValues

  /**
   The categories of the source's `MediaType` union, plus `Other` for a
   content-type prefix outside the union, which the source returns as is.
   */
  datatype MediaType =
    | Video | Audio | Image | Script | Document | EBook | ThreeDFile | ComicBook | Application | Unknown
    | Other(token: string)

  /** The string the source uses for a category. */
  function Name(m: MediaType): string
  {
    match m
    case Video => "video"
    case Audio => "audio"
    case Image => "image"
    case Script => "script"
    case Document => "document"
    case EBook => "e-book"
    case ThreeDFile => "3D-file"
    case ComicBook => "comic-book"
    case Application => "application"
    case Unknown => "unknown"
    case Other(t) => t
  }

  /** The strings of the source's `MediaType` union. */
  const CategoryNames: set<string> :=
    {"video", "audio", "image", "script", "document", "e-book", "3D-file", "comic-book", "application", "unknown"}

  /** An `Other` token is never the name of one of the enumerated categories. */
  predicate Canonical(m: MediaType)
  {
    m.Other? ==> FromName(m.token) == m
  }

  /** Reads a returned string back as a category. */
  function FromName(s: string): (m: MediaType)
    ensures Name(m) == s
    ensures m.Other? <==> s !in CategoryNames
  {
    if s == "video" then Video
    else if s == "audio" then Audio
    else if s == "image" then Image
    else if s == "script" then Script
    else if s == "document" then Document
    else if s == "e-book" then EBook
    else if s == "3D-file" then ThreeDFile
    else if s == "comic-book" then ComicBook
    else if s == "application" then Application
    else if s == "unknown" then Unknown
    else Other(s)
  }

  /** Names are a faithful encoding of canonical categories. */
  lemma NameRoundTrip(m: MediaType)
    requires Canonical(m)
    ensures FromName(Name(m)) == m
  {
  }

  lemma NameInjective(a: MediaType, b: MediaType)
    requires Canonical(a) && Canonical(b)
    requires Name(a) == Name(b)
    ensures a == b
  {
    NameRoundTrip(a);
    NameRoundTrip(b);
  }

  // ---------------------------------------------------------------------
  // The extension table
  // ---------------------------------------------------------------------

  /** One row of the table: the extensions of one pattern and its category. */
  datatype Group = Group(extensions: seq<string>, category: MediaType)

  const VideoExtensions: seq<string> := ["mp4", "m4v", "webm", "flv", "f4v", "ogv"]
  const AudioExtensions: seq<string> := ["mp3", "m4a", "aac", "wav", "flac", "ogg", "opus"]
  const ImageExtensions: seq<string> := ["jpeg", "jpg", "png", "gif", "svg", "webp"]
  const ScriptExtensions: seq<string> :=
    ["h", "go", "ja", "java", "js", "jsx", "c", "cpp", "cs", "css", "rb", "scss", "sh", "php", "py"]
  const DocumentExtensions: seq<string> :=
    ["html", "json", "csv", "txt", "log", "md", "markdown", "docx", "pdf", "xml", "yml", "yaml"]
  const EBookExtensions: seq<string> := ["pdf", "odf", "doc", "docx", "epub", "org", "rtf"]
  const ThreeDFileExtensions: seq<string> := ["stl", "obj", "fbx", "gcode"]
  const ComicBookExtensions: seq<string> := ["cbr", "cbt", "cbz"]
  const ApplicationExtensions: seq<string> := ["lbry"]

  /** The patterns in the order the source tries them. */
  const Groups: seq<Group> := [
    Group(VideoExtensions, Video),
    Group(AudioExtensions, Audio),
    Group(ImageExtensions, Image),
    Group(ScriptExtensions, Script),
    Group(DocumentExtensions, Document),
    Group(EBookExtensions, EBook),
    Group(ThreeDFileExtensions, ThreeDFile),
    Group(ComicBookExtensions, ComicBook),
    Group(ApplicationExtensions, Application)
  ]

  /** A list of pattern alternatives none of which contains a `.`. */
  predicate DotFreeList(extensions: seq<string>)
  {
    forall i :: 0 <= i < |extensions| ==> '.' !in extensions[i]
  }

  /** A table row whose pattern text and category name contain no `.`. */
  predicate DotFree(g: Group)
  {
    DotFreeList(g.extensions) && '.' !in Name(g.category)
  }

  lemma ExtensionListsAreDotFree()
    ensures DotFreeList(VideoExtensions) && DotFreeList(AudioExtensions) && DotFreeList(ImageExtensions)
    ensures DotFreeList(ScriptExtensions) && DotFreeList(DocumentExtensions) && DotFreeList(EBookExtensions)
    ensures DotFreeList(ThreeDFileExtensions) && DotFreeList(ComicBookExtensions)
    ensures DotFreeList(ApplicationExtensions)
  {
    MediaListsAreDotFree();
    TextListsAreDotFree();
    OtherListsAreDotFree();
  }

  lemma MediaListsAreDotFree()
    ensures DotFreeList(VideoExtensions) && DotFreeList(AudioExtensions) && DotFreeList(ImageExtensions)
  {
  }

  lemma TextListsAreDotFree()
    ensures DotFreeList(ScriptExtensions) && DotFreeList(DocumentExtensions)
  {
  }

  lemma OtherListsAreDotFree()
    ensures DotFreeList(EBookExtensions) && DotFreeList(ThreeDFileExtensions)
    ensures DotFreeList(ComicBookExtensions) && DotFreeList(ApplicationExtensions)
  {
  }

  lemma CategoryNamesAreDotFree()
    ensures '.' !in Name(Video)
    ensures '.' !in Name(Audio)
    ensures '.' !in Name(Image)
    ensures '.' !in Name(Script)
    ensures '.' !in Name(Document)
    ensures '.' !in Name(EBook)
    ensures '.' !in Name(ThreeDFile)
    ensures '.' !in Name(ComicBook)
    ensures '.' !in Name(Application)
  {
  }

  lemma GroupsAreDotFree()
    ensures forall i :: 0 <= i < |Groups| ==> DotFree(Groups[i])
  {
    ExtensionListsAreDotFree();
    CategoryNamesAreDotFree();
    forall i | 0 <= i < |Groups| ensures DotFree(Groups[i]) {
      if i == 0 { assert Groups[i] == Group(VideoExtensions, Video); }
      else if i == 1 { assert Groups[i] == Group(AudioExtensions, Audio); }
      else if i == 2 { assert Groups[i] == Group(ImageExtensions, Image); }
      else if i == 3 { assert Groups[i] == Group(ScriptExtensions, Script); }
      else if i == 4 { assert Groups[i] == Group(DocumentExtensions, Document); }
      else if i == 5 { assert Groups[i] == Group(EBookExtensions, EBook); }
      else if i == 6 { assert Groups[i] == Group(ThreeDFileExtensions, ThreeDFile); }
      else if i == 7 { assert Groups[i] == Group(ComicBookExtensions, ComicBook); }
      else if i == 8 { assert Groups[i] == Group(ApplicationExtensions, Application); }
    }
  }

  // ---------------------------------------------------------------------
  // Strings
  // ---------------------------------------------------------------------

  /** ASCII lower-casing, which is what the `i` flag amounts to for these patterns. */
  function LowerChar(c: char): (r: char)
    ensures r == '.' <==> c == '.'
    ensures r == '/' <==> c == '/'
  {
    if 'A' <= c <= 'Z' then (c as int + 32) as char else c
  }

  function Lower(s: string): (r: string)
    ensures |r| == |s|
    ensures forall i :: 0 <= i < |s| ==> r[i] == LowerChar(s[i])
  {
    seq(|s|, i requires 0 <= i < |s| => LowerChar(s[i]))
  }

  lemma LowerKeepsDots(s: string)
    ensures '.' in Lower(s) <==> '.' in s
  {
    if '.' in s {
      var i :| 0 <= i < |s| && s[i] == '.';
      assert Lower(s)[i] == '.';
    }
  }

  lemma LowerIdempotent(s: string)
    ensures Lower(Lower(s)) == Lower(s)
  {
  }

  predicate EndsWith(s: string, suffix: string)
  {
    |suffix| <= |s| && s[|s| - |suffix|..] == suffix
  }

  /**
   The text after the last `.` of `s` (all of `s` when it has none).
   */
  function AfterLastDot(s: string): (r: string)
    ensures |r| <= |s| && r == s[|s| - |r|..]
    ensures '.' !in r
    ensures '.' in s ==> |r| < |s| && s[|s| - |r| - 1] == '.'
    ensures '.' !in s ==> r == s
  {
    if |s| == 0 then s
    else if s[|s| - 1] == '.' then []
    else AfterLastDot(s[..|s| - 1]) + [s[|s| - 1]]
  }

  /** The lower-cased extension of a file name. */
  function Extension(fileName: string): string
  {
    AfterLastDot(Lower(fileName))
  }

  /**
   The regex engine's answer for `/\.(e1|e2|...)$/i.test(s)`: the
   lower-cased text ends in a `.` followed by one of the alternatives.
   */
  predicate PatternMatches(g: Group, s: string)
  {
    exists e :: e in g.extensions && EndsWith(Lower(s), "." + e)
  }

  /** `/^[^/]+/`: the longest leading run of characters other than `/`. */
  function LeadingToken(s: string): (r: string)
    ensures |r| <= |s| && r == s[..|r|]
    ensures '/' !in r
    ensures |r| < |s| ==> s[|r|] == '/'
  {
    if |s| == 0 || s[0] == '/' then []
    else [s[0]] + LeadingToken(s[1..])
  }

  // ---------------------------------------------------------------------
  // The classifier as written
  // ---------------------------------------------------------------------

  /**
   `formats.reduce(...)` with the file name as initial accumulator. The
   source's `typeof ret === 'string'` guard always holds (the accumulator is
   the file name or a category name), so each step only tests the pattern.
   */
  function Reduce(groups: seq<Group>, acc: string): string
  {
    if groups == [] then acc
    else Reduce(groups[1..], if PatternMatches(groups[0], acc) then Name(groups[0].category) else acc)
  }

  /** `getMediaType(contentType, fileName)`, returning the source's string. */
  function GetMediaType(contentType: Option<string>, fileName: Option<string>): string
  {
    if fileName.Some? && fileName.value != "" && '.' in fileName.value then
      var result := Reduce(Groups, fileName.value);
      if result == fileName.value then "unknown" else result
    else if contentType.Some? && contentType.value != "" then
      var token := LeadingToken(contentType.value);
      if token != "" then token else "unknown"
    else
      "unknown"
  }

  // ---------------------------------------------------------------------
  // The reference classifier
  // ---------------------------------------------------------------------

  /** The index of the first group listing `ext`, if any. */
  function FirstGroup(groups: seq<Group>, ext: string): (r: Option<nat>)
    ensures r.Some? ==> r.value < |groups| && ext in groups[r.value].extensions
    ensures r.Some? ==> forall j :: 0 <= j < r.value ==> ext !in groups[j].extensions
    ensures r.None? ==> forall j :: 0 <= j < |groups| ==> ext !in groups[j].extensions
  {
    if groups == [] then None
    else if ext in groups[0].extensions then Some(0)
    else match FirstGroup(groups[1..], ext)
      case None => None
      case Some(i) => Some(i + 1)
  }

  /** The category the extension table assigns to a file name with a `.`. */
  function ByExtension(fileName: string): MediaType
  {
    match FirstGroup(Groups, Extension(fileName))
    case None => Unknown
    case Some(i) => Groups[i].category
  }

  /**
   Reference classification: the file name decides when it contains a `.`;
   otherwise a non-empty content type gives its leading token; otherwise
   `Unknown`.
   */
  function Classify(contentType: Option<string>, fileName: Option<string>): (m: MediaType)
    ensures Canonical(m)
  {
    if fileName.Some? && '.' in fileName.value then ByExtension(fileName.value)
    else if contentType.Some? && LeadingToken(contentType.value) != "" then FromName(LeadingToken(contentType.value))
    else Unknown
  }

  // ---------------------------------------------------------------------
  // Agreement of the two
  // ---------------------------------------------------------------------

  /** A suffix `.e` with a dot-free `e` is exactly the text after the last dot. */
  lemma {:induction false} AfterLastDotOfSuffix(p: string, e: string)
    requires '.' !in e
    ensures AfterLastDot(p + ['.'] + e) == e
  {
    if e == [] {
      assert p + ['.'] + e == p + ['.'];
    } else {
      var e', c := e[..|e| - 1], e[|e| - 1];
      assert e == e' + [c];
      assert c != '.';
      assert '.' !in e' by {
        assert forall x :: x in e' ==> x in e;
      }
      var s' := p + ['.'] + e';
      assert p + ['.'] + e == s' + [c];
      AfterLastDotOfSuffix(p, e');
      AfterLastDotSnoc(s', c);
    }
  }

  /** Appending a character other than `.` extends the text after the last dot. */
  lemma AfterLastDotSnoc(s: string, c: char)
    requires c != '.'
    ensures AfterLastDot(s + [c]) == AfterLastDot(s) + [c]
  {
    assert (s + [c])[..|s|] == s;
  }

  lemma EndsWithDotIff(t: string, e: string)
    requires '.' !in e
    ensures EndsWith(t, "." + e) <==> ('.' in t && AfterLastDot(t) == e)
  {
    if EndsWith(t, "." + e) {
      EndsWithDotGivesExtension(t, e);
    }
    if '.' in t && AfterLastDot(t) == e {
      ExtensionGivesEndsWithDot(t, e);
    }
  }

  lemma EndsWithDotGivesExtension(t: string, e: string)
    requires '.' !in e && EndsWith(t, "." + e)
    ensures '.' in t && AfterLastDot(t) == e
  {
    var k := |t| - |e| - 1;
    var p := t[..k];
    assert t[k..] == "." + e;
    assert t[k] == '.';
    assert t == p + t[k..];
    assert t == p + ['.'] + e;
    AfterLastDotOfSuffix(p, e);
  }

  lemma ExtensionGivesEndsWithDot(t: string, e: string)
    requires '.' in t && AfterLastDot(t) == e
    ensures EndsWith(t, "." + e)
  {
    var k := |t| - |e| - 1;
    assert t[k] == '.' && t[k + 1..] == e;
    assert t[k..] == [t[k]] + t[k + 1..];
  }

  /** A pattern test succeeds exactly when the extension is listed. */
  lemma PatternMatchesIff(g: Group, s: string)
    requires DotFree(g)
    ensures PatternMatches(g, s) <==> ('.' in s && Extension(s) in g.extensions)
  {
    LowerKeepsDots(s);
    if PatternMatches(g, s) {
      var e :| e in g.extensions && EndsWith(Lower(s), "." + e);
      EndsWithDotIff(Lower(s), e);
    }
    if '.' in s && Extension(s) in g.extensions {
      EndsWithDotIff(Lower(s), Extension(s));
    }
  }

  /** Once the accumulator holds a dot-free string no pattern changes it. */
  lemma {:induction false} ReduceDotFree(groups: seq<Group>, acc: string)
    requires forall i :: 0 <= i < |groups| ==> DotFree(groups[i])
    requires '.' !in acc
    ensures Reduce(groups, acc) == acc
  {
    if groups != [] {
      PatternMatchesIff(groups[0], acc);
      ReduceDotFree(groups[1..], acc);
    }
  }

  /** The `reduce` returns the first matching category, or the file name. */
  lemma {:induction false} ReduceIsFirstMatch(groups: seq<Group>, fileName: string)
    requires forall i :: 0 <= i < |groups| ==> DotFree(groups[i])
    requires '.' in fileName
    ensures Reduce(groups, fileName) ==
      match FirstGroup(groups, Extension(fileName))
      case None => fileName
      case Some(i) => Name(groups[i].category)
  {
    if groups != [] {
      PatternMatchesIff(groups[0], fileName);
      if PatternMatches(groups[0], fileName) {
        ReduceDotFree(groups[1..], Name(groups[0].category));
      } else {
        ReduceIsFirstMatch(groups[1..], fileName);
      }
    }
  }

  /** The classifier as written returns the name of the reference category. */
  lemma ClassifyMatchesSource(contentType: Option<string>, fileName: Option<string>)
    ensures GetMediaType(contentType, fileName) == Name(Classify(contentType, fileName))
  {
    if fileName.Some? && '.' in fileName.value {
      GroupsAreDotFree();
      ReduceIsFirstMatch(Groups, fileName.value);
      match FirstGroup(Groups, Extension(fileName.value))
      case None =>
      case Some(i) =>
        assert '.' !in Name(Groups[i].category);
    }
  }

  // ---------------------------------------------------------------------
  // Properties of the classifier
  // ---------------------------------------------------------------------

  /**
   A file name with a `.` decides alone: its first listed group wins and no
   later group is consulted; an unlisted extension gives `Unknown` whatever
   the content type.
   */
  lemma FileNameBranch(contentType: Option<string>, fileName: string)
    requires '.' in fileName
    ensures var m := Classify(contentType, Some(fileName));
      && (m == Unknown <==> forall i :: 0 <= i < |Groups| ==> Extension(fileName) !in Groups[i].extensions)
      && (m != Unknown ==>
            exists i :: 0 <= i < |Groups|
              && Extension(fileName) in Groups[i].extensions
              && m == Groups[i].category
              && forall j :: 0 <= j < i ==> Extension(fileName) !in Groups[j].extensions)
  {
    match FirstGroup(Groups, Extension(fileName))
    case None =>
    case Some(i) =>
      assert Groups[i].category != Unknown;
  }

  /** The file-name branch ignores letter case. */
  lemma FileNameCaseInsensitive(contentType: Option<string>, fileName: string)
    ensures Classify(contentType, Some(Lower(fileName))) == Classify(contentType, Some(fileName))
  {
    LowerKeepsDots(fileName);
    LowerIdempotent(fileName);
  }

  /**
   Without a `.` in the file name the content type decides: its non-empty
   leading token before the first `/`, or `Unknown` when it is absent, empty
   or starts with `/`.
   */
  lemma ContentTypeBranch(contentType: Option<string>, fileName: Option<string>)
    requires fileName.None? || '.' !in fileName.value
    ensures contentType.None? ==> Classify(contentType, fileName) == Unknown
    ensures contentType.Some? && (contentType.value == "" || contentType.value[0] == '/') ==>
      Classify(contentType, fileName) == Unknown
    ensures contentType.Some? && contentType.value != "" && contentType.value[0] != '/' ==>
      var token := Name(Classify(contentType, fileName));
      && token != ""
      && contentType.value[..|token|] == token
      && '/' !in token
      && (|token| == |contentType.value| || contentType.value[|token|] == '/')
  {
  }

  /** `.pdf` and `.docx` are listed by both the document and e-book patterns; document wins. */
  lemma DocumentBeforeEBook(contentType: Option<string>, fileName: string)
    requires '.' in fileName
    requires Extension(fileName) == "pdf" || Extension(fileName) == "docx"
    ensures Classify(contentType, Some(fileName)) == Document
    ensures Extension(fileName) in EBookExtensions
  {
    var ext := Extension(fileName);
    if ext == "pdf" {
      PdfListing();
    } else {
      DocxListing();
    }
    FirstGroupAt(Groups, ext, 4);
  }

  lemma PdfListing()
    ensures "pdf" !in VideoExtensions && "pdf" !in AudioExtensions && "pdf" !in ImageExtensions
    ensures "pdf" !in ScriptExtensions && "pdf" in DocumentExtensions && "pdf" in EBookExtensions
  {
    assert DocumentExtensions[8] == "pdf" && EBookExtensions[0] == "pdf";
  }

  lemma DocxListing()
    ensures "docx" !in VideoExtensions && "docx" !in AudioExtensions && "docx" !in ImageExtensions
    ensures "docx" !in ScriptExtensions && "docx" in DocumentExtensions && "docx" in EBookExtensions
  {
    assert DocumentExtensions[7] == "docx" && EBookExtensions[3] == "docx";
  }

  /** A string without upper-case ASCII letters is its own lower-casing. */
  lemma LowerOfLowerCase(s: string)
    requires forall i :: 0 <= i < |s| ==> !('A' <= s[i] <= 'Z')
    ensures Lower(s) == s
  {
  }

  /** `FirstGroup` is determined by its contract. */
  lemma FirstGroupAt(groups: seq<Group>, ext: string, i: nat)
    requires i < |groups| && ext in groups[i].extensions
    requires forall j :: 0 <= j < i ==> ext !in groups[j].extensions
    ensures FirstGroup(groups, ext) == Some(i)
  {
  }

  /** `LeadingToken` stops at the first `/`. */
  lemma LeadingTokenAt(s: string, k: nat)
    requires k < |s| && s[k] == '/'
    requires forall i :: 0 <= i < k ==> s[i] != '/'
    ensures LeadingToken(s) == s[..k]
  {
  }

  lemma ExampleVideo()
    ensures Classify(None, Some("movie.mp4")) == Video
  {
    LowerOfLowerCase("movie.mp4");
    assert "movie.mp4" == "movie" + ['.'] + "mp4";
    AfterLastDotOfSuffix("movie", "mp4");
    assert "movie.mp4"[5] == '.';
    assert VideoExtensions[0] == "mp4";
    FirstGroupAt(Groups, "mp4", 0);
  }

  lemma ExampleComicBook()
    ensures Classify(None, Some("archive.cbz")) == ComicBook
  {
    LowerOfLowerCase("archive.cbz");
    assert "archive.cbz" == "archive" + ['.'] + "cbz";
    AfterLastDotOfSuffix("archive", "cbz");
    assert "archive.cbz"[7] == '.';
    CbzListedLate();
    FirstGroupAt(Groups, "cbz", 7);
  }

  lemma CbzListedLate()
    ensures "cbz" !in VideoExtensions && "cbz" !in AudioExtensions && "cbz" !in ImageExtensions
    ensures "cbz" !in ScriptExtensions && "cbz" !in DocumentExtensions && "cbz" !in EBookExtensions
    ensures "cbz" !in ThreeDFileExtensions && "cbz" in ComicBookExtensions
  {
    assert ComicBookExtensions[2] == "cbz";
  }

  lemma ExampleNoExtension()
    ensures Classify(None, Some("noext")) == Unknown
  {
    assert '.' !in "noext";
  }

  lemma ExampleImageContentType()
    ensures Classify(Some("image/png"), None) == Image
  {
    LeadingTokenAt("image/png", 5);
    assert "image/png"[..5] == "image";
  }

  lemma ExampleOtherContentType()
    ensures Classify(Some("model/x-custom"), None) == Other("model")
  {
    ModelToken();
    ModelIsOther();
  }

  lemma ModelToken()
    ensures LeadingToken("model/x-custom") == "model"
  {
    LeadingTokenAt("model/x-custom", 5);
    assert "model/x-custom"[..5] == "model";
  }

  lemma ModelIsOther()
    ensures FromName("model") == Other("model")
  {
    assert "model"[0] == 'm';
  }
}
