/**
 * Images in the floating prompt input (src/components/FloatingPromptInput/hooks/useImageHandling.ts).
 * Images are referred to in the prompt text by mentions, `@path` or `@"path"` when the path holds
 * a space; the list of embedded images is recomputed from the prompt whenever the prompt changes.
 * Pasted images become attachments kept beside the prompt. The two regular expressions the hook
 * scans with are written out as scanning functions over the text.
 */
module ImageHandling {
  import opened Base
  import opened Text
  import opened Seqs

  /** The extensions, lower-cased, that make a path an image. */
  const ImageExtensions: seq<string> := ["png", "jpg", "jpeg", "gif", "svg", "webp", "ico", "bmp"]

  /** `path.split('.').pop()`: the text after the last ".", or the whole path when it has none. */
  function AfterLastDot(s: string): (r: string)
    ensures EndsWith(s, r) && '.' !in r
    ensures |r| < |s| ==> s[|s| - |r| - 1] == '.'
  {
    if s == [] then ""
    else if Last(s) == '.' then ""
    else
      var front := AfterLastDot(s[..|s| - 1]);
      ExtendSuffix(s, front);
      front + [Last(s)]
  }

  predicate IsImageFile(path: string) {
    StartsWith(path, "data:image/") || ToLower(AfterLastDot(path)) in ImageExtensions
  }

  /** A path without "." is judged by the whole of it, so a bare extension counts as an image. */
  lemma NoDotIsWholePath(path: string)
    requires '.' !in path
    ensures AfterLastDot(path) == path
    ensures IsImageFile(path) <==> StartsWith(path, "data:image/") || ToLower(path) in ImageExtensions
  {
  }

  /** The extension is what follows the last ".", however many dots come before it. */
  lemma {:induction false} AfterDotOf(front: string, ext: string)
    requires '.' !in ext
    ensures AfterLastDot(front + "." + ext) == ext
    decreases |ext|
  {
    var s := front + "." + ext;
    if ext != [] {
      var e := ext[..|ext| - 1];
      assert s[..|s| - 1] == front + "." + e;
      AfterDotOf(front, e);
      assert e + [Last(ext)] == ext;
    }
  }

  /** Extensions are compared without regard to ASCII case. */
  lemma UpperCaseExtension()
    ensures IsImageFile("/home/u/Shot.PNG")
  {
    AfterDotOf("/home/u/Shot", "PNG");
    assert "/home/u/Shot" + "." + "PNG" == "/home/u/Shot.PNG";
    assert ToLower("PNG") == "png";
  }

  lemma LongIsNoImageExtension(e: string)
    requires |e| > 4
    ensures e !in ImageExtensions
  {
  }

  /** A dot in a directory name does not give the file an extension. */
  lemma DotInDirectory()
    ensures !IsImageFile("/img.png/readme")
  {
    AfterDotOf("/img", "png/readme");
    assert "/img" + "." + "png/readme" == "/img.png/readme";
    assert !StartsWith("/img.png/readme", "data:image/");
    LongIsNoImageExtension(ToLower("png/readme"));
  }

  /** How an image path is written into the prompt: quoted exactly when it contains a space. */
  function Mention(path: string): (m: string)
    ensures ' ' in path ==> m == "@\"" + path + "\""
    ensures ' ' !in path ==> m == "@" + path
  {
    if ' ' in path then "@\"" + path + "\"" else "@" + path
  }

  /** The prompt after appending `mentions`: one separating space unless the prompt is empty or ends with one, and a trailing space. */
  function Appended(prompt: string, mentions: string): (r: string)
    ensures StartsWith(r, prompt) && EndsWith(r, mentions + " ")
    ensures |r| == |prompt| + |mentions| + 1 + (if prompt == "" || EndsWith(prompt, " ") then 0 else 1)
  {
    var r := prompt + (if EndsWith(prompt, " ") || prompt == "" then "" else " ") + mentions + " ";
    assert r[|r| - |mentions + " "|..] == mentions + " ";
    r
  }

  // ---- the quoted scan, `/@"([^"]+)"/g` ----

  /** The first '"' at or after `i`. */
  function NextQuote(s: string, i: nat): (r: Option<nat>)
    ensures r.Some? ==> i <= r.value < |s| && s[r.value] == '"'
    ensures r.Some? ==> forall j :: i <= j < r.value ==> s[j] != '"'
    ensures r.None? ==> forall j :: i <= j < |s| ==> s[j] != '"'
    decreases |s| - i
  {
    if i >= |s| then None
    else if s[i] == '"' then Some(i)
    else NextQuote(s, i + 1)
  }

  /** A quoted mention starts at `i`: the index of its closing quote. */
  function QuotedAt(s: string, i: nat): (r: Option<nat>)
    ensures r.Some? ==> i + 2 < r.value < |s| && s[i] == '@' && s[i + 1] == '"' && s[r.value] == '"'
    ensures r.Some? ==> forall j :: i + 2 <= j < r.value ==> s[j] != '"'
  {
    if i + 1 < |s| && s[i] == '@' && s[i + 1] == '"' then
      match NextQuote(s, i + 2)
      case Some(j) => if j > i + 2 then Some(j) else None
      case None => None
    else None
  }

  /** The paths of the quoted mentions from `i` on, left to right. */
  function QuotedPaths(s: string, i: nat): (r: seq<string>)
    ensures forall k :: 0 <= k < |r| ==> |r[k]| > 0 && '"' !in r[k]
    decreases |s| - i
  {
    if i >= |s| then []
    else match QuotedAt(s, i)
      case Some(j) => [s[i + 2..j]] + QuotedPaths(s, j + 1)
      case None => QuotedPaths(s, i + 1)
  }

  /** `s.replace(quotedRegex, '')` from `i` on. */
  function RemoveQuoted(s: string, i: nat): (r: string)
    ensures |r| <= |s| - i || i > |s|
    decreases |s| - i
  {
    if i >= |s| then []
    else match QuotedAt(s, i)
      case Some(j) => RemoveQuoted(s, j + 1)
      case None => [s[i]] + RemoveQuoted(s, i + 1)
  }

  // ---- the unquoted scan, `/@([^@\n\s]+)/g` ----

  predicate UnquotedChar(c: char) {
    c != '@' && c != '\n' && !IsJsSpace(c)
  }

  /** The end of the run of unquoted-path characters that starts at `i`. */
  function RunEnd(s: string, i: nat): (r: nat)
    requires i <= |s|
    ensures i <= r <= |s|
    ensures forall j :: i <= j < r ==> UnquotedChar(s[j])
    ensures r < |s| ==> !UnquotedChar(s[r])
    decreases |s| - i
  {
    if i == |s| || !UnquotedChar(s[i]) then i else RunEnd(s, i + 1)
  }

  /** The paths of the unquoted mentions from `i` on, left to right. */
  function UnquotedPaths(s: string, i: nat): (r: seq<string>)
    ensures forall k :: 0 <= k < |r| ==> |r[k]| > 0 && forall j :: 0 <= j < |r[k]| ==> UnquotedChar(r[k][j])
    decreases |s| - i
  {
    if i >= |s| then []
    else if s[i] == '@' && RunEnd(s, i + 1) > i + 1 then
      var e := RunEnd(s, i + 1);
      var p := s[i + 1..e];
      assert forall j :: 0 <= j < |p| ==> UnquotedChar(p[j]) by {
        forall j | 0 <= j < |p|
          ensures UnquotedChar(p[j])
        {
          assert p[j] == s[i + 1 + j];
        }
      }
      [p] + UnquotedPaths(s, e)
    else UnquotedPaths(s, i + 1)
  }

  /** A run without whitespace is its own trim, so the `.trim()` on an unquoted match changes nothing. */
  lemma TrimRun(p: string)
    requires forall j :: 0 <= j < |p| ==> !IsJsSpace(p[j])
    ensures JsTrim(p) == p
  {
  }

  // ---- resolving and collecting ----

  /** The project path is used only when it is present and non-empty. */
  function Resolve(projectPath: Option<string>, path: string): string {
    if StartsWith(path, "/") then path
    else if projectPath.Some? && projectPath.value != "" then projectPath.value + "/" + path
    else path
  }

  /** Quoted mentions may also be data URLs, which are kept as they are. */
  function ResolveQuoted(projectPath: Option<string>, path: string): string {
    if StartsWith(path, "data:") then path else Resolve(projectPath, path)
  }

  function QuotedCandidates(projectPath: Option<string>, ms: seq<string>): (r: seq<string>)
    ensures |r| == |ms|
  {
    if ms == [] then []
    else QuotedCandidates(projectPath, ms[..|ms| - 1]) + [ResolveQuoted(projectPath, Last(ms))]
  }

  /**
   * An unquoted match is skipped when it contains "data:", and resolved otherwise. The source
   * trims the match first; a match holds no whitespace, so that changes nothing (`TrimRun`).
   */
  function UnquotedCandidate(projectPath: Option<string>, m: string): Option<string> {
    if Contains(m, "data:") then None else Some(Resolve(projectPath, m))
  }

  function UnquotedCandidates(projectPath: Option<string>, ms: seq<string>): (r: seq<string>)
    ensures |r| <= |ms|
  {
    if ms == [] then []
    else
      var front := UnquotedCandidates(projectPath, ms[..|ms| - 1]);
      match UnquotedCandidate(projectPath, Last(ms))
      case None => front
      case Some(p) => front + [p]
  }

  predicate NoDup(s: seq<string>) {
    forall i, j :: 0 <= i < j < |s| ==> s[i] != s[j]
  }

  /** `set.add(x)` on an insertion-ordered set. */
  function SetAdd(acc: seq<string>, x: string): seq<string> {
    if x in acc then acc else acc + [x]
  }

  /** Adding the image candidates, in order, to an insertion-ordered set. */
  function AddPaths(acc: seq<string>, cands: seq<string>): seq<string> {
    if cands == [] then acc
    else
      var front := AddPaths(acc, cands[..|cands| - 1]);
      var x := Last(cands);
      if IsImageFile(x) then SetAdd(front, x) else front
  }

  /** The set keeps what it had, gains exactly the image candidates, and never holds a path twice. */
  lemma {:induction false} AddPathsFacts(acc: seq<string>, cands: seq<string>)
    ensures var r := AddPaths(acc, cands);
      (NoDup(acc) ==> NoDup(r))
      && (forall x :: x in r <==> x in acc || (x in cands && IsImageFile(x)))
  {
    if cands != [] {
      var front := cands[..|cands| - 1];
      AddPathsFacts(acc, front);
      assert forall y :: y in cands <==> y in front || y == Last(cands);
    }
  }

  /** `extractImagePaths`: quoted mentions first, then unquoted mentions of the text without the quoted ones. */
  function ImagePaths(projectPath: Option<string>, text: string): seq<string> {
    var quoted := QuotedCandidates(projectPath, QuotedPaths(text, 0));
    var unquoted := UnquotedCandidates(projectPath, UnquotedPaths(RemoveQuoted(text, 0), 0));
    AddPaths(AddPaths([], quoted), unquoted)
  }

  /**
   * The embedded images are distinct, and they are exactly the image paths among the resolved
   * quoted mentions and the resolved unquoted mentions that do not contain "data:".
   */
  lemma ImagePathsFacts(projectPath: Option<string>, text: string)
    ensures var r := ImagePaths(projectPath, text);
      var quoted := QuotedCandidates(projectPath, QuotedPaths(text, 0));
      var unquoted := UnquotedCandidates(projectPath, UnquotedPaths(RemoveQuoted(text, 0), 0));
      NoDup(r) && forall x :: x in r <==> (x in quoted || x in unquoted) && IsImageFile(x)
  {
    var quoted := QuotedCandidates(projectPath, QuotedPaths(text, 0));
    var unquoted := UnquotedCandidates(projectPath, UnquotedPaths(RemoveQuoted(text, 0), 0));
    AddPathsFacts([], quoted);
    AddPathsFacts(AddPaths([], quoted), unquoted);
  }

  // ---- removing mentions ----

  /** `s.replace(new RegExp(lit + "\\s?", 'g'), '')` for a literal `lit`: every match and one following whitespace character. */
  function RemoveAll(s: string, lit: string): (r: string)
    requires |lit| > 0
    ensures |r| <= |s|
    decreases |s|
  {
    if s == [] then ""
    else if StartsWith(s, lit) then
      var rest := s[|lit|..];
      if rest != [] && IsJsSpace(rest[0]) then RemoveAll(rest[1..], lit) else RemoveAll(rest, lit)
    else [s[0]] + RemoveAll(s[1..], lit)
  }

  /** Where `lit` does not occur, nothing is removed. */
  lemma {:induction false} RemoveAllAbsent(s: string, lit: string)
    requires |lit| > 0 && forall i :: !At(s, lit, i)
    ensures RemoveAll(s, lit) == s
    decreases |s|
  {
    if s != [] {
      assert !At(s, lit, 0);
      forall i
        ensures !At(s[1..], lit, i)
      {
        assert !At(s, lit, i + 1);
      }
      RemoveAllAbsent(s[1..], lit);
    }
  }

  /** Where `lit` occurs, something is removed. */
  lemma {:induction false} RemoveAllShrinks(s: string, lit: string, i: nat)
    requires |lit| > 0 && At(s, lit, i)
    ensures |RemoveAll(s, lit)| < |s|
    decreases |s|
  {
    if !StartsWith(s, lit) {
      assert i > 0;
      assert s[1..][i - 1..i - 1 + |lit|] == s[i..i + |lit|];
      RemoveAllShrinks(s[1..], lit, i - 1);
    }
  }

  /** Text whose characters all differ from the first of `lit` is passed over unchanged. */
  lemma {:induction false} RemoveAllPassesOver(w: string, t: string, lit: string)
    requires |lit| > 0 && lit[0] !in w
    ensures RemoveAll(w + t, lit) == w + RemoveAll(t, lit)
    decreases |w|
  {
    if w != [] {
      var s := w + t;
      assert s[0] == w[0] && w[0] != lit[0];
      assert !StartsWith(s, lit);
      assert RemoveAll(s, lit) == [s[0]] + RemoveAll(s[1..], lit);
      assert s[1..] == w[1..] + t;
      RemoveAllPassesOver(w[1..], t, lit);
      calc {
        RemoveAll(s, lit);
        [w[0]] + (w[1..] + RemoveAll(t, lit));
        ([w[0]] + w[1..]) + RemoveAll(t, lit);
        { assert [w[0]] + w[1..] == w; }
        w + RemoveAll(t, lit);
      }
    } else {
      assert w + t == t;
    }
  }

  function ReplaceFirst(s: string, lit: string): (r: string)
    ensures IndexOf(s, lit).None? ==> r == s
    ensures IndexOf(s, lit).Some? ==> |r| + |lit| == |s|
  {
    match IndexOf(s, lit)
    case None => s
    case Some(k) => s[..k] + s[k + |lit|..]
  }

  /** The four patterns for a non-data path: quoted and bare, absolute and relative. */
  function MentionPatterns(projectPath: Option<string>, imagePath: string): (pats: seq<string>)
    ensures |pats| == 4 && forall k :: 0 <= k < 4 ==> |pats[k]| > 0 && pats[k][0] == '@'
  {
    // `projectPath + '/'` reads "undefined/" when there is no project path.
    var base := match projectPath case Some(p) => p case None => "undefined";
    var relative := ReplaceFirst(imagePath, base + "/");
    ["@\"" + imagePath + "\"", "@" + imagePath, "@\"" + relative + "\"", "@" + relative]
  }

  function RemoveEach(s: string, pats: seq<string>): string
    requires forall k :: 0 <= k < |pats| ==> |pats[k]| > 0
  {
    if pats == [] then s else RemoveAll(RemoveEach(s, pats[..|pats| - 1]), Last(pats))
  }

  /** The prompt after removing the embedded image `imagePath`. */
  function WithoutImage(prompt: string, projectPath: Option<string>, imagePath: string): string {
    if StartsWith(imagePath, "data:") then JsTrim(ReplaceFirst(prompt, "@\"" + imagePath + "\""))
    else JsTrim(RemoveEach(prompt, MentionPatterns(projectPath, imagePath)))
  }

  // ---- what adding and removing promise ----

  lemma {:induction false} NoQuoteScan(s: string, i: nat)
    requires forall j :: i <= j < |s| ==> s[j] != '"'
    ensures QuotedPaths(s, i) == [] && RemoveQuoted(s, i) == (if i <= |s| then s[i..] else [])
    decreases |s| - i
  {
    if i < |s| {
      NoQuoteScan(s, i + 1);
      assert s[i..] == [s[i]] + s[i + 1..];
    }
  }

  lemma {:induction false} NoAtQuoted(s: string, i: nat, m: nat)
    requires i <= m <= |s| && forall j :: i <= j < m ==> s[j] != '@'
    ensures QuotedPaths(s, i) == QuotedPaths(s, m)
    decreases m - i
  {
    if i < m {
      assert QuotedAt(s, i).None?;
      NoAtQuoted(s, i + 1, m);
    }
  }

  lemma {:induction false} NoAtRemoveQuoted(s: string, i: nat, m: nat)
    requires i <= m <= |s| && forall j :: i <= j < m ==> s[j] != '@'
    ensures RemoveQuoted(s, i) == s[i..m] + RemoveQuoted(s, m)
    decreases m - i
  {
    if i < m {
      assert RemoveQuoted(s, i) == [s[i]] + RemoveQuoted(s, i + 1) by {
        assert QuotedAt(s, i).None?;
      }
      NoAtRemoveQuoted(s, i + 1, m);
      SliceCons(s, i, m);
    }
  }

  lemma {:induction false} NoAtUnquoted(s: string, i: nat, m: nat)
    requires i <= m <= |s| && forall j :: i <= j < m ==> s[j] != '@'
    ensures UnquotedPaths(s, i) == UnquotedPaths(s, m)
    decreases m - i
  {
    if i < m {
      NoAtUnquoted(s, i + 1, m);
    }
  }

  /** The collected paths of a text whose only mention is `path`, resolved. */
  lemma SingleCandidate(projectPath: Option<string>, path: string, quoted: seq<string>, unquoted: seq<string>)
    requires IsImageFile(path)
    requires quoted + unquoted == [path]
    ensures AddPaths(AddPaths([], quoted), unquoted) == [path]
  {
    if quoted == [] {
      assert unquoted == [path];
      assert unquoted[..0] == [];
    } else {
      assert quoted == [path] && unquoted == [];
      assert quoted[..0] == [];
    }
  }

  /** Requirements on an absolute path for its mention to be read back as that path. */
  predicate Mentionable(path: string) {
    StartsWith(path, "/") && IsImageFile(path) && '"' !in path
    && (' ' !in path ==> (forall j :: 0 <= j < |path| ==> UnquotedChar(path[j])) && !Contains(path, "data:"))
  }

  /** A quoted mention followed by a space is read as its path and removed with it. */
  lemma QuotedMentionScan(s: string, m: nat, path: string)
    requires m <= |s| && s[m..] == "@\"" + path + "\" "
    requires |path| > 0 && '"' !in path
    ensures QuotedPaths(s, m) == [path] && RemoveQuoted(s, m) == " "
  {
    var close := m + 2 + |path|;
    assert s[close] == '"';
    assert forall j :: m + 2 <= j < close ==> s[j] == path[j - m - 2];
    NextQuoteSkips(s, m + 2, close);
    assert QuotedAt(s, m) == Some(close);
    assert s[m + 2..close] == path;
    NoQuoteScan(s, close + 1);
    assert s[close + 1..] == " ";
  }

  /** An unquoted mention followed by a space is read as its path. */
  lemma UnquotedMentionScan(s: string, m: nat, path: string)
    requires m <= |s| && s[m..] == "@" + path + " "
    requires |path| > 0 && forall j :: 0 <= j < |path| ==> UnquotedChar(path[j])
    ensures UnquotedPaths(s, m) == [path]
  {
    var e := m + 1 + |path|;
    assert forall j :: m + 1 <= j < e ==> s[j] == path[j - m - 1];
    assert s[e] == ' ';
    RunEndSkips(s, m + 1, e);
    assert s[m + 1..e] == path;
    assert UnquotedPaths(s, e + 1) == [];
    assert UnquotedPaths(s, e) == [];
  }

  /** The text a prompt without mentions gets in front of the appended mention. */
  function Lead(prompt: string): string {
    prompt + (if EndsWith(prompt, " ") || prompt == "" then "" else " ")
  }

  /** The scans of a quoted mention after text without "@": it is the only match of either scan. */
  lemma ScanQuotedMention(w: string, path: string)
    requires '@' !in w && ' ' in path && '"' !in path
    ensures var s := w + Mention(path) + " ";
      QuotedPaths(s, 0) == [path] && UnquotedPaths(RemoveQuoted(s, 0), 0) == []
  {
    var s := w + Mention(path) + " ";
    var m := |w|;
    assert s[m..] == "@\"" + path + "\" ";
    assert forall j :: 0 <= j < m ==> s[j] == w[j];
    assert s[0..m] == w;
    NoAtQuoted(s, 0, m);
    NoAtRemoveQuoted(s, 0, m);
    QuotedMentionScan(s, m, path);
    var t := RemoveQuoted(s, 0);
    assert t == w + " ";
    NoAtUnquoted(t, 0, |t|);
  }

  /** The scans of a bare mention after text without "@" or '"': it is the only match of either scan. */
  lemma ScanBareMention(w: string, path: string)
    requires '@' !in w && '"' !in w && |path| > 0 && ' ' !in path && '"' !in path
    requires forall j :: 0 <= j < |path| ==> UnquotedChar(path[j])
    ensures var s := w + Mention(path) + " ";
      QuotedPaths(s, 0) == [] && UnquotedPaths(RemoveQuoted(s, 0), 0) == [path]
  {
    var s := w + Mention(path) + " ";
    var m := |w|;
    assert s[m..] == "@" + path + " ";
    assert forall j :: 0 <= j < m ==> s[j] == w[j];
    assert forall j :: m + 1 <= j < m + 1 + |path| ==> s[j] == path[j - m - 1];
    assert forall j :: 0 <= j < |s| ==> s[j] != '"';
    NoQuoteScan(s, 0);
    assert RemoveQuoted(s, 0) == s;
    NoAtUnquoted(s, 0, m);
    UnquotedMentionScan(s, m, path);
  }

  /** A quoted mention after text without "@" or '"' is the only embedded image. */
  lemma QuotedAddedIsRead(projectPath: Option<string>, w: string, path: string)
    requires '@' !in w && '"' !in w
    requires Mentionable(path) && ' ' in path
    ensures ImagePaths(projectPath, w + Mention(path) + " ") == [path]
  {
    ScanQuotedMention(w, path);
    assert QuotedCandidates(projectPath, [path]) == [path] by {
      assert [path][..0] == [];
    }
    SingleCandidate(projectPath, path, [path], []);
  }

  /** A bare mention after text without "@" or '"' is the only embedded image. */
  lemma BareAddedIsRead(projectPath: Option<string>, w: string, path: string)
    requires '@' !in w && '"' !in w
    requires Mentionable(path) && ' ' !in path
    ensures ImagePaths(projectPath, w + Mention(path) + " ") == [path]
  {
    ScanBareMention(w, path);
    CollectBare(projectPath, w + Mention(path) + " ", path);
  }

  lemma CollectBare(projectPath: Option<string>, s: string, path: string)
    requires QuotedPaths(s, 0) == [] && UnquotedPaths(RemoveQuoted(s, 0), 0) == [path]
    requires StartsWith(path, "/") && !Contains(path, "data:") && IsImageFile(path)
    ensures ImagePaths(projectPath, s) == [path]
  {
    BareCandidate(projectPath, path);
    assert QuotedCandidates(projectPath, []) == [];
    SingleCandidate(projectPath, path, [], [path]);
  }

  lemma BareCandidate(projectPath: Option<string>, path: string)
    requires StartsWith(path, "/") && !Contains(path, "data:")
    ensures UnquotedCandidates(projectPath, [path]) == [path]
  {
    assert UnquotedCandidate(projectPath, path) == Some(path);
    assert [path][..0] == [];
  }

  /**
   * After an absolute image path is added to a prompt without mentions, the embedded images of
   * the new prompt are exactly that path.
   */
  lemma AddedMentionIsRead(projectPath: Option<string>, prompt: string, path: string)
    requires '@' !in prompt && '"' !in prompt
    requires Mentionable(path)
    ensures ImagePaths(projectPath, Appended(prompt, Mention(path))) == [path]
  {
    var w := Lead(prompt);
    assert Appended(prompt, Mention(path)) == w + Mention(path) + " ";
    if ' ' in path {
      QuotedAddedIsRead(projectPath, w, path);
    } else {
      BareAddedIsRead(projectPath, w, path);
    }
  }

  lemma {:induction false} NextQuoteSkips(s: string, i: nat, close: nat)
    requires i <= close < |s| && s[close] == '"' && forall j :: i <= j < close ==> s[j] != '"'
    ensures NextQuote(s, i) == Some(close)
    decreases close - i
  {
    if i < close {
      NextQuoteSkips(s, i + 1, close);
    }
  }

  lemma {:induction false} RunEndSkips(s: string, i: nat, e: nat)
    requires i <= e < |s| && !UnquotedChar(s[e]) && forall j :: i <= j < e ==> UnquotedChar(s[j])
    ensures RunEnd(s, i) == e
    decreases e - i
  {
    if i < e {
      RunEndSkips(s, i + 1, e);
    }
  }

  /** Appending a space does not change what a string trims to. */
  lemma TrimTrailingSpace(w: string)
    ensures JsTrim(w + " ") == JsTrim(w)
  {
    TrimStartSpace(w);
    var a := TrimStart(w, IsJsSpace);
    if a != [] {
      TrimEndSnocSpace(a, ' ', IsJsSpace);
    }
  }

  lemma {:induction false} TrimStartSpace(w: string)
    ensures TrimStart(w + " ", IsJsSpace) == (if TrimStart(w, IsJsSpace) == [] then [] else TrimStart(w, IsJsSpace) + " ")
  {
    if w != [] {
      assert (w + " ")[0] == w[0];
      if IsJsSpace(w[0]) {
        assert (w + " ")[1..] == w[1..] + " ";
        TrimStartSpace(w[1..]);
      }
    }
  }

  /** A mention right after text without "@", with its following space, is removed and the text kept. */
  lemma RemoveTrailingMention(w: string, lit: string)
    requires |lit| > 0 && lit[0] == '@' && '@' !in w
    ensures RemoveAll(w + lit + " ", lit) == w
  {
    RemoveAllPassesOver(w, lit + " ", lit);
    assert w + lit + " " == w + (lit + " ");
    var m := lit + " ";
    assert StartsWith(m, lit);
    assert m[|lit|..] == " ";
    assert RemoveAll(m, lit) == RemoveAll("", lit);
  }

  /** Text without "@" holds no mention to remove. */
  lemma RemoveFromPlain(w: string, lit: string)
    requires |lit| > 0 && lit[0] == '@' && '@' !in w
    ensures RemoveAll(w, lit) == w
  {
    RemoveAllPassesOver(w, "", lit);
    assert w + "" == w;
  }

  lemma RemoveEachFour(s: string, pats: seq<string>)
    requires |pats| == 4 && forall k :: 0 <= k < 4 ==> |pats[k]| > 0
    ensures RemoveEach(s, pats) == RemoveAll(RemoveAll(RemoveAll(RemoveAll(s, pats[0]), pats[1]), pats[2]), pats[3])
  {
    assert pats[..4] == pats;
    assert pats[..3][..2] == pats[..2] && pats[..2][..1] == pats[..1] && pats[..1][..0] == [];
    assert RemoveEach(s, pats[..1]) == RemoveAll(s, pats[0]);
    assert RemoveEach(s, pats[..2]) == RemoveAll(RemoveEach(s, pats[..1]), pats[1]);
    assert RemoveEach(s, pats[..3]) == RemoveAll(RemoveEach(s, pats[..2]), pats[2]);
    assert RemoveEach(s, pats) == RemoveAll(RemoveEach(s, pats[..3]), pats[3]);
  }

  /** A bare mention holds no quoted one: that would be longer than the bare mention. */
  lemma {:induction false} BareIsNotQuoted(w: string, path: string)
    requires '@' !in w
    ensures forall i :: !At(w + ("@" + path + " "), "@\"" + path + "\"", i)
  {
    var s := w + ("@" + path + " ");
    var lit := "@\"" + path + "\"";
    forall i
      ensures !At(s, lit, i)
    {
      if 0 <= i && i + |lit| <= |s| {
        assert s[i..i + |lit|][0] == w[i];
      }
    }
  }

  /** Removing the four patterns of a path written quoted after text without "@". */
  lemma RemoveQuotedMention(projectPath: Option<string>, w: string, path: string)
    requires '@' !in w && ' ' in path
    ensures RemoveEach(w + Mention(path) + " ", MentionPatterns(projectPath, path)) == w
  {
    var pats := MentionPatterns(projectPath, path);
    RemoveEachFour(w + Mention(path) + " ", pats);
    RemoveTrailingMention(w, pats[0]);
    RemoveFromPlain(w, pats[1]);
    RemoveFromPlain(w, pats[2]);
    RemoveFromPlain(w, pats[3]);
  }

  /** Removing the four patterns of a path written bare after text without "@". */
  lemma RemoveBareMention(projectPath: Option<string>, w: string, path: string)
    requires '@' !in w && ' ' !in path
    ensures RemoveEach(w + Mention(path) + " ", MentionPatterns(projectPath, path)) == w
  {
    var pats := MentionPatterns(projectPath, path);
    var s := w + Mention(path) + " ";
    assert s == w + ("@" + path + " ");
    RemoveEachFour(s, pats);
    BareIsNotQuoted(w, path);
    RemoveAllAbsent(s, pats[0]);
    RemoveTrailingMention(w, pats[1]);
    RemoveFromPlain(w, pats[2]);
    RemoveFromPlain(w, pats[3]);
  }

  /**
   * Removing an image path (not a data URL) just added to a prompt without mentions gives
   * back the prompt, trimmed.
   */
  lemma RemoveUndoesAdd(projectPath: Option<string>, prompt: string, path: string)
    requires '@' !in prompt && !StartsWith(path, "data:")
    ensures WithoutImage(Appended(prompt, Mention(path)), projectPath, path) == JsTrim(prompt)
  {
    RemoveAddedMention(projectPath, prompt, path);
    LeadTrims(prompt);
  }

  /** The four patterns take out the appended mention with its space, and nothing of the prompt. */
  lemma RemoveAddedMention(projectPath: Option<string>, prompt: string, path: string)
    requires '@' !in prompt
    ensures RemoveEach(Appended(prompt, Mention(path)), MentionPatterns(projectPath, path)) == Lead(prompt)
  {
    var w := Lead(prompt);
    assert Appended(prompt, Mention(path)) == w + Mention(path) + " ";
    assert '@' !in w;
    if ' ' in path {
      RemoveQuotedMention(projectPath, w, path);
    } else {
      RemoveBareMention(projectPath, w, path);
    }
  }

  /** The separator in front of an appended mention is trimmed away with it. */
  lemma LeadTrims(prompt: string)
    ensures JsTrim(Lead(prompt)) == JsTrim(prompt)
  {
    if EndsWith(prompt, " ") || prompt == "" {
      assert Lead(prompt) == prompt + "" == prompt;
    } else {
      assert Lead(prompt) == prompt + " ";
      TrimTrailingSpace(prompt);
    }
  }

  lemma QuotedCandidatesStep(projectPath: Option<string>, ms: seq<string>, i: nat)
    requires i < |ms|
    ensures QuotedCandidates(projectPath, ms[..i + 1]) == QuotedCandidates(projectPath, ms[..i]) + [ResolveQuoted(projectPath, ms[i])]
  {
    assert ms[..i + 1][..i] == ms[..i];
  }

  lemma UnquotedCandidatesStep(projectPath: Option<string>, ms: seq<string>, i: nat)
    requires i < |ms|
    ensures UnquotedCandidates(projectPath, ms[..i + 1])
         == UnquotedCandidates(projectPath, ms[..i]) + (match UnquotedCandidate(projectPath, ms[i]) case None => [] case Some(p) => [p])
  {
    assert ms[..i + 1][..i] == ms[..i];
    assert Last(ms[..i + 1]) == ms[i];
  }

  lemma AddPathsStep(acc: seq<string>, cands: seq<string>, x: string)
    ensures AddPaths(acc, cands + [x]) == if IsImageFile(x) then SetAdd(AddPaths(acc, cands), x) else AddPaths(acc, cands)
  {
    assert (cands + [x])[..|cands|] == cands;
  }

  /** One turn of the quoted loop of `ExtractImagePaths`. */
  lemma CollectQuotedStep(projectPath: Option<string>, quoted: seq<string>, i: nat, paths: seq<string>)
    requires i < |quoted|
    requires paths == AddPaths([], QuotedCandidates(projectPath, quoted[..i]))
    ensures var p := ResolveQuoted(projectPath, quoted[i]);
      AddPaths([], QuotedCandidates(projectPath, quoted[..i + 1])) == if IsImageFile(p) then SetAdd(paths, p) else paths
  {
    QuotedCandidatesStep(projectPath, quoted, i);
    AddPathsStep([], QuotedCandidates(projectPath, quoted[..i]), ResolveQuoted(projectPath, quoted[i]));
  }

  /** One turn of the unquoted loop of `ExtractImagePaths`. */
  lemma CollectUnquotedStep(projectPath: Option<string>, unquoted: seq<string>, i: nat, acc: seq<string>, paths: seq<string>)
    requires i < |unquoted|
    requires paths == AddPaths(acc, UnquotedCandidates(projectPath, unquoted[..i]))
    ensures AddPaths(acc, UnquotedCandidates(projectPath, unquoted[..i + 1]))
         == match UnquotedCandidate(projectPath, unquoted[i])
            case None => paths
            case Some(p) => if IsImageFile(p) then SetAdd(paths, p) else paths
  {
    UnquotedCandidatesStep(projectPath, unquoted, i);
    var front := UnquotedCandidates(projectPath, unquoted[..i]);
    var c := UnquotedCandidate(projectPath, unquoted[i]);
    if c.Some? {
      assert UnquotedCandidates(projectPath, unquoted[..i + 1]) == front + [c.value];
      AddPathsStep(acc, front, c.value);
    } else {
      assert UnquotedCandidates(projectPath, unquoted[..i + 1]) == front;
    }
  }

  /** Every unquoted match is its own trim. */
  lemma UnquotedMatchIsTrimmed(t: string, i: nat)
    requires i < |UnquotedPaths(t, 0)|
    ensures JsTrim(UnquotedPaths(t, 0)[i]) == UnquotedPaths(t, 0)[i]
  {
    TrimRun(UnquotedPaths(t, 0)[i]);
  }

  /** An image pasted from the clipboard and saved to disk. */
  datatype ImageAttachment = ImageAttachment(id: string, filePath: string, previewUrl: string)

  /** Events of the window's native drag and drop. */
  datatype DragDropEvent = Enter | Over | Leave | Drop(paths: seq<string>)

  /** `extractImagePaths`: the image mentions of `text`, each once, in order of first mention. */
  method ExtractImagePaths(projectPath: Option<string>, text: string) returns (paths: seq<string>)
    ensures paths == ImagePaths(projectPath, text)
  {
    paths := CollectQuoted(projectPath, QuotedPaths(text, 0));
    paths := CollectUnquoted(projectPath, paths, RemoveQuoted(text, 0));
  }

  /** The first loop of `extractImagePaths`: the quoted mentions, resolved, images only. */
  method CollectQuoted(projectPath: Option<string>, quoted: seq<string>) returns (paths: seq<string>)
    ensures paths == AddPaths([], QuotedCandidates(projectPath, quoted))
  {
    paths := [];
    var i := 0;
    while i < |quoted|
      invariant 0 <= i <= |quoted|
      invariant paths == AddPaths([], QuotedCandidates(projectPath, quoted[..i]))
    {
      var path := quoted[i];
      var fullPath := if StartsWith(path, "data:") then path else Resolve(projectPath, path);
      CollectQuotedStep(projectPath, quoted, i, paths);
      var isImage := IsImageFile(fullPath);
      if isImage {
        paths := SetAdd(paths, fullPath);
      }
      i := i + 1;
    }
    assert quoted[..i] == quoted;
  }

  /** The second loop: the unquoted mentions of the text with its quoted mentions removed. */
  method CollectUnquoted(projectPath: Option<string>, acc: seq<string>, rest: string) returns (paths: seq<string>)
    ensures paths == AddPaths(acc, UnquotedCandidates(projectPath, UnquotedPaths(rest, 0)))
  {
    var unquoted := UnquotedPaths(rest, 0);
    paths := acc;
    var i := 0;
    while i < |unquoted|
      invariant 0 <= i <= |unquoted|
      invariant paths == AddPaths(acc, UnquotedCandidates(projectPath, unquoted[..i]))
    {
      // The source trims the match first, which leaves it as it is (`UnquotedMatchIsTrimmed`).
      var path := unquoted[i];
      CollectUnquotedStep(projectPath, unquoted, i, acc, paths);
      if Contains(path, "data:") {
        i := i + 1;
        continue;
      }
      var fullPath := Resolve(projectPath, path);
      var isImage := IsImageFile(fullPath);
      if isImage {
        paths := SetAdd(paths, fullPath);
      }
      i := i + 1;
    }
    assert unquoted[..i] == unquoted;
  }

  class ImageInput {
    /** The project the prompt belongs to; relative mentions are resolved against it. */
    const projectPath: Option<string>
    /** The parent's prompt text. */
    var prompt: string
    var attachments: seq<ImageAttachment>
    /** The images mentioned in the prompt. */
    var embedded: seq<string>
    var dragActive: bool
    /** Time of the last accepted drop; the listener that holds it is recreated when the prompt changes. */
    var lastDropTime: int

    ghost predicate Valid()
      reads this
    {
      embedded == ImagePaths(projectPath, prompt)
    }

    constructor(projectPath: Option<string>)
      ensures Valid()
      ensures this.projectPath == projectPath && prompt == "" && attachments == [] && embedded == []
      ensures !dragActive && lastDropTime == 0
    {
      this.projectPath := projectPath;
      prompt := "";
      attachments := [];
      embedded := [];
      dragActive := false;
      lastDropTime := 0;
    }

    /** `onPromptChange`, followed by the effect that recomputes the embedded images. */
    method SetPrompt(newPrompt: string)
      requires Valid()
      modifies this
      ensures Valid()
      ensures prompt == newPrompt && attachments == old(attachments) && dragActive == old(dragActive)
      ensures lastDropTime == (if newPrompt == old(prompt) then old(lastDropTime) else 0)
    {
      if newPrompt != prompt {
        lastDropTime := 0;
      }
      prompt := newPrompt;
      embedded := ExtractImagePaths(projectPath, newPrompt);
    }

    /** `addImage`: appends a mention of an image not yet in the prompt. */
    method AddImage(imagePath: string)
      requires Valid()
      modifies this
      ensures Valid() && attachments == old(attachments)
      ensures !IsImageFile(imagePath) || imagePath in old(embedded) ==> prompt == old(prompt)
      ensures IsImageFile(imagePath) && imagePath !in old(embedded) ==>
                prompt == Appended(old(prompt), Mention(imagePath))
    {
      if !IsImageFile(imagePath) {
        return;
      }
      var existingPaths := ExtractImagePaths(projectPath, prompt);
      if imagePath in existingPaths {
        return;
      }
      var mention := if ' ' in imagePath then "@\"" + imagePath + "\"" else "@" + imagePath;
      var newPrompt := prompt + (if EndsWith(prompt, " ") || prompt == "" then "" else " ") + mention + " ";
      SetPrompt(newPrompt);
    }

    /** A pasted image that the back end saved (`saved` is its file path) becomes the last attachment. */
    method AddPastedImage(id: string, saved: Option<string>, previewUrl: string)
      modifies this
      ensures saved.None? ==> attachments == old(attachments)
      ensures saved.Some? ==> attachments == old(attachments) + [ImageAttachment(id, saved.value, previewUrl)]
      ensures prompt == old(prompt) && embedded == old(embedded)
    {
      if saved.Some? {
        attachments := attachments + [ImageAttachment(id, saved.value, previewUrl)];
      }
    }

    /** `handleRemoveImageAttachment`: drops every attachment with the id, keeping the others in order. */
    method RemoveImageAttachment(attachmentId: string)
      modifies this
      ensures attachments == Filter(old(attachments), (a: ImageAttachment) => a.id != attachmentId)
      ensures forall a :: a in attachments <==> a in old(attachments) && a.id != attachmentId
      ensures prompt == old(prompt) && embedded == old(embedded)
    {
      attachments := Filter(attachments, (a: ImageAttachment) => a.id != attachmentId);
    }

    /** `handleRemoveEmbeddedImage`: an index past the list throws and leaves everything as it was. */
    method RemoveEmbeddedImage(index: int)
      requires Valid()
      modifies this
      ensures Valid() && attachments == old(attachments)
      ensures !(0 <= index < |old(embedded)|) ==> prompt == old(prompt)
      ensures 0 <= index < |old(embedded)| ==>
                prompt == WithoutImage(old(prompt), projectPath, old(embedded)[index])
    {
      if !(0 <= index < |embedded|) {
        return;
      }
      var imagePath := embedded[index];
      if StartsWith(imagePath, "data:") {
        SetPrompt(JsTrim(ReplaceFirst(prompt, "@\"" + imagePath + "\"")));
        return;
      }
      var patterns := MentionPatterns(projectPath, imagePath);
      var newPrompt := prompt;
      for k := 0 to 4
        invariant newPrompt == RemoveEach(prompt, patterns[..k])
      {
        assert patterns[..k + 1][..k] == patterns[..k];
        newPrompt := RemoveAll(newPrompt, patterns[k]);
      }
      assert patterns[..4] == patterns;
      SetPrompt(JsTrim(newPrompt));
    }

    /**
     * The native drag-and-drop listener. A drop within 200 ms of the last accepted one is ignored;
     * otherwise the dropped images not yet mentioned are appended, space-separated.
     */
    method HandleDragDrop(e: DragDropEvent, now: int)
      requires Valid()
      modifies this
      ensures Valid() && attachments == old(attachments)
      ensures dragActive == (e.Enter? || e.Over?)
      ensures !e.Drop? || now - old(lastDropTime) < 200 ==> prompt == old(prompt)
      ensures e.Drop? && now - old(lastDropTime) >= 200 ==>
                var added := Filter(Filter(e.paths, IsImageFile), (p: string) => p !in old(embedded));
                prompt == (if added == [] then old(prompt) else Appended(old(prompt), Join(MentionAll(added), " ")))
    {
      match e {
        case Enter => dragActive := true;
        case Over => dragActive := true;
        case Leave => dragActive := false;
        case Drop(paths) =>
          dragActive := false;
          if now - lastDropTime < 200 {
            return;
          }
          lastDropTime := now;
          var imagePaths := Filter(paths, IsImageFile);
          if |imagePaths| > 0 {
            var existingPaths := ExtractImagePaths(projectPath, prompt);
            var newPaths := Filter(imagePaths, (p: string) => p !in existingPaths);
            if |newPaths| == 0 {
              return;
            }
            var mentionsToAdd := Join(MentionAll(newPaths), " ");
            var newPrompt := prompt + (if EndsWith(prompt, " ") || prompt == "" then "" else " ") + mentionsToAdd + " ";
            SetPrompt(newPrompt);
          }
      }
    }
  }

  function MentionAll(paths: seq<string>): (r: seq<string>)
    ensures |r| == |paths| && forall k :: 0 <= k < |r| ==> r[k] == Mention(paths[k])
  {
    seq(|paths|, k requires 0 <= k < |paths| => Mention(paths[k]))
  }
}
