/** File names as the receiver uses them: cleaned of anything dangerous, and made distinct in one directory. */
module Filenames {
  const MAX_FILENAME_LENGTH := 255

  const DOWNLOAD := "download"

  const WINDOWS_RESERVED: set<string> := {
    "CON", "PRN", "AUX", "NUL",
    "COM1", "COM2", "COM3", "COM4", "COM5", "COM6", "COM7", "COM8", "COM9",
    "LPT1", "LPT2", "LPT3", "LPT4", "LPT5", "LPT6", "LPT7", "LPT8", "LPT9"
  }

  // ----- sanitizeFilename

  /** White space as String.prototype.trim and \s know it. */
  predicate IsSpace(c: char) {
    || '\U{0009}' <= c <= '\U{000D}' || c == ' ' || c == '\U{00A0}' || c == '\U{1680}'
    || '\U{2000}' <= c <= '\U{200A}' || c == '\U{2028}' || c == '\U{2029}' || c == '\U{202F}'
    || c == '\U{205F}' || c == '\U{3000}' || c == '\U{FEFF}'
  }

  predicate IsControl(c: char) {
    c <= '\U{001F}' || c == '\U{007F}'
  }

  predicate IsSeparator(c: char) {
    c == '/' || c == '\\'
  }

  /** Matched by [.\s]. */
  predicate IsTail(c: char) {
    c == '.' || IsSpace(c)
  }

  function TrimStart(s: string): (r: string)
    ensures forall c :: c in r ==> c in s
    ensures r != [] ==> !IsSpace(r[0])
    ensures s != [] && !IsSpace(s[0]) ==> r == s
    ensures |r| <= |s|
  {
    if s != [] && IsSpace(s[0]) then TrimStart(s[1..]) else s
  }

  /** Drops the longest suffix of characters that satisfy p. */
  function DropTail(s: string, p: char -> bool): (r: string)
    ensures r <= s
    ensures forall c :: c in r ==> c in s
    ensures r != [] ==> !p(r[|r| - 1])
    ensures s != [] && !p(s[|s| - 1]) ==> r == s
  {
    if s != [] && p(s[|s| - 1]) then DropTail(s[..|s| - 1], p) else s
  }

  /** name.split(/[/\\]/).pop() */
  function LastComponent(s: string): (r: string)
    ensures forall c :: c in r ==> c in s && !IsSeparator(c)
    ensures (forall c :: c in s ==> !IsSeparator(c)) ==> r == s
    ensures |r| <= |s|
  {
    if s == [] then []
    else if IsSeparator(s[|s| - 1]) then []
    else LastComponent(s[..|s| - 1]) + [s[|s| - 1]]
  }

  function DropControls(s: string): (r: string)
    ensures forall c :: c in r ==> c in s && !IsControl(c)
    ensures (forall c :: c in s ==> !IsControl(c)) ==> r == s
    ensures |r| <= |s|
  {
    if s == [] then []
    else DropControls(s[..|s| - 1]) + if IsControl(s[|s| - 1]) then [] else [s[|s| - 1]]
  }

  function Upper(s: string): string {
    seq(|s|, i requires 0 <= i < |s| => if 'a' <= s[i] <= 'z' then ((s[i] as int - 32) as char) else s[i])
  }

  predicate Reserved(base: string) {
    DropTail(Upper(base), c => c == '.') in WINDOWS_RESERVED
  }

  function Component(name: string): (r: string)
    ensures |r| <= |name| || |r| <= 8
    ensures forall c :: c in r ==> !IsSeparator(c)
  {
    var component := LastComponent(name);
    if component == [] then DOWNLOAD else component
  }

  function Trim(s: string): (r: string)
    ensures |r| <= |s|
    ensures forall c :: c in r ==> c in s
    ensures r != [] ==> !IsSpace(r[0])
  {
    DropTail(TrimStart(s), IsSpace)
  }

  /** The last path component without control characters, trimmed, and without trailing dots and spaces. */
  function BaseName(name: string): (r: string)
    ensures |r| <= |name| || |r| <= 8
    ensures forall c :: c in r ==> !IsSeparator(c) && !IsControl(c)
    ensures r != [] ==> !IsSpace(r[0]) && !IsTail(r[|r| - 1])
  {
    DropTail(Trim(DropControls(Component(name))), IsTail)
  }

  function Sanitize(name: string): string {
    if Trim(name) == [] then DOWNLOAD else FromBase(BaseName(name))
  }

  function FromBase(base: string): string {
    if base == [] || base == "." || base == ".." then DOWNLOAD
    else if Reserved(base) then DOWNLOAD
    else if |base| > MAX_FILENAME_LENGTH then base[..MAX_FILENAME_LENGTH]
    else base
  }

  /** The name stays inside one directory. */
  ghost predicate Inside(name: string) {
    && name != []
    && (forall c :: c in name ==> !IsSeparator(c) && !IsControl(c))
    && name != "." && name != ".."
    && !IsSpace(name[0])
  }

  ghost predicate Harmless(name: string) {
    Inside(name) && |name| <= MAX_FILENAME_LENGTH
  }

  lemma DownloadHarmless()
    ensures Harmless(DOWNLOAD) && !IsTail(DOWNLOAD[7]) && !Reserved(DOWNLOAD)
  {
    var u := Upper(DOWNLOAD);
    assert u[7] == 'D';
    assert |u| == 8;
  }

  /** Whatever the peer calls a file, the name used here stays inside one directory. */
  lemma SanitizeHarmless(name: string)
    ensures Harmless(Sanitize(name))
  {
    DownloadHarmless();
    var base := BaseName(name);
    if |base| > MAX_FILENAME_LENGTH {
      assert forall c :: c in base[..MAX_FILENAME_LENGTH] ==> c in base;
    }
  }

  /** Only cutting a long name can leave a reserved device name or a bad ending behind. */
  lemma SanitizeNotReserved(name: string)
    ensures var s := Sanitize(name);
      0 < |s| < MAX_FILENAME_LENGTH ==> !Reserved(s) && !IsTail(s[|s| - 1])
  {
    hide Sanitize, Reserved, IsTail, Harmless;
    DownloadHarmless();
    SanitizeCases(name);
  }

  lemma SanitizeCases(name: string)
    ensures var s := Sanitize(name);
      || s == DOWNLOAD || |s| == MAX_FILENAME_LENGTH
      || (s != [] && !Reserved(s) && !IsTail(s[|s| - 1]))
  {
    hide BaseName, Reserved, IsTail;
  }

  /** A harmless name that ends well is left as it is. */
  lemma SanitizeKeeps(s: string)
    requires Harmless(s) && !IsTail(s[|s| - 1]) && !Reserved(s)
    ensures Sanitize(s) == s
  {
    hide LastComponent, DropControls, TrimStart, DropTail, Reserved, IsSeparator, IsControl;
    assert LastComponent(s) == s;
    assert DropControls(s) == s;
    assert TrimStart(s) == s;
    assert Trim(s) == s;
    assert DropTail(s, IsTail) == s;
  }

  // ----- only the last component of a path matters

  lemma LastComponentSnoc(s: string, c: char)
    ensures LastComponent(s + [c]) == if IsSeparator(c) then [] else LastComponent(s) + [c]
  {
    assert (s + [c])[..|s|] == s;
  }

  lemma {:induction false} LastComponentAfter(path: string, sep: char, s: string)
    requires IsSeparator(sep)
    ensures LastComponent(path + [sep] + s) == LastComponent(s)
  {
    hide LastComponent, IsSeparator;
    if s == [] {
      assert path + [sep] + s == path + [sep];
      LastComponentSnoc(path, sep);
    } else {
      var front, c := s[..|s| - 1], s[|s| - 1];
      LastComponentAfter(path, sep, front);
      LastComponentSnoc(path + [sep] + front, c);
      LastComponentSnoc(front, c);
      assert s == front + [c];
      assert path + [sep] + s == path + [sep] + front + [c];
    }
  }

  predicate Blank(s: string) {
    forall i :: 0 <= i < |s| ==> IsSpace(s[i])
  }

  lemma {:induction false} TrimStartBlank(s: string)
    ensures TrimStart(s) == [] <==> Blank(s)
  {
    if s != [] && IsSpace(s[0]) {
      TrimStartBlank(s[1..]);
      assert Blank(s) <==> Blank(s[1..]) by {
        assert forall i :: 1 <= i < |s| ==> s[i] == s[1..][i - 1];
      }
    }
  }

  lemma TrimBlank(s: string)
    ensures Trim(s) == [] <==> Blank(s)
  {
    hide TrimStart, IsSpace;
    TrimStartBlank(s);
    if TrimStart(s) != [] {
      DropTailKeepsHead(TrimStart(s));
    }
  }

  /** What starts with a visible character keeps it. */
  lemma {:induction false} DropTailKeepsHead(s: string)
    requires s != [] && !IsSpace(s[0])
    ensures DropTail(s, IsSpace) != []
  {
    if |s| > 1 {
      DropTailKeepsHead(s[..|s| - 1]);
    }
  }

  lemma EmptyBase()
    ensures BaseName([]) == DOWNLOAD
  {
    hide DropControls, TrimStart, DropTail, IsSpace, IsControl;
    DownloadPlain();
    assert LastComponent([]) == [];
    assert DropControls(DOWNLOAD) == DOWNLOAD;
    assert TrimStart(DOWNLOAD) == DOWNLOAD;
  }

  lemma DownloadPlain()
    ensures forall c :: c in DOWNLOAD ==> !IsControl(c)
    ensures !IsSpace(DOWNLOAD[0]) && !IsSpace(DOWNLOAD[|DOWNLOAD| - 1]) && !IsTail(DOWNLOAD[|DOWNLOAD| - 1])
  {
  }

  lemma BlankBase(s: string)
    requires Blank(s) && s != []
    ensures BaseName(s) == []
  {
    hide DropControls, LastComponent, Trim;
    assert forall c :: c in s ==> IsSpace(c) && !IsSeparator(c);
    assert Component(s) == s;
    assert Blank(DropControls(s)) by {
      assert forall c :: c in DropControls(s) ==> c in s;
    }
    TrimBlank(DropControls(s));
  }

  /** A blank name, or none at all, leaves no base: the fallback is used. */
  lemma BlankIsDownload(s: string)
    requires Blank(s)
    ensures Sanitize(s) == DOWNLOAD == FromBase(BaseName(s))
  {
    hide BaseName, Trim, Reserved, Blank;
    TrimBlank(s);
    DownloadHarmless();
    if s == [] {
      EmptyBase();
    } else {
      BlankBase(s);
    }
  }

  lemma BaseAfter(path: string, sep: char, s: string)
    requires IsSeparator(sep)
    ensures BaseName(path + [sep] + s) == BaseName(s) && !Blank(path + [sep] + s)
  {
    hide DropTail, Trim, DropControls, LastComponent;
    LastComponentAfter(path, sep, s);
    assert (path + [sep] + s)[|path|] == sep;
  }

  /** Directories in front of a name, of either style, change nothing. */
  lemma SanitizePath(path: string, sep: char, s: string)
    requires IsSeparator(sep)
    ensures Sanitize(path + [sep] + s) == Sanitize(s)
  {
    hide Blank, BaseName, Trim, FromBase, IsSpace;
    var t := path + [sep] + s;
    BaseAfter(path, sep, s);
    TrimBlank(t);
    TrimBlank(s);
    if Blank(s) {
      BlankIsDownload(s);
    }
  }

  lemma SanitizeEndsWell(s: string)
    requires |s| <= MAX_FILENAME_LENGTH
    ensures var r := Sanitize(s); r != [] && !IsTail(r[|r| - 1])
  {
    hide BaseName, Trim, Reserved, IsTail, Harmless;
    DownloadHarmless();
    assert |BaseName(s)| <= MAX_FILENAME_LENGTH;
  }

  lemma LongNotReserved(s: string)
    requires |s| >= MAX_FILENAME_LENGTH && !IsTail(s[|s| - 1])
    ensures !Reserved(s)
  {
    var u := Upper(s);
    assert u[|u| - 1] != '.';
    assert DropTail(u, c => c == '.') == u;
    assert forall w :: w in WINDOWS_RESERVED ==> |w| <= 4;
  }

  /** The cut to 255 characters leaves a dot or a space at the end. */
  predicate CutLeavesTail(name: string) {
    && Trim(name) != [] && |BaseName(name)| > MAX_FILENAME_LENGTH
    && IsTail(BaseName(name)[MAX_FILENAME_LENGTH - 1])
  }

  /** Cleaning a name twice differs from cleaning it once exactly when the cut leaves a dot or a space at the end. */
  lemma SanitizeIdempotent(name: string)
    ensures Sanitize(Sanitize(name)) == Sanitize(name) <==> !CutLeavesTail(name)
  {
    hide Sanitize, CutLeavesTail, IsTail, Reserved, Harmless;
    var s := Sanitize(name);
    SanitizeHarmless(name);
    SanitizeNotReserved(name);
    HarmlessLength(s);
    TailMeansCut(name);
    SanitizeEndsWell(s);
    if !IsTail(s[|s| - 1]) {
      if |s| == MAX_FILENAME_LENGTH {
        LongNotReserved(s);
      }
      SanitizeKeeps(s);
    }
  }

  lemma HarmlessLength(s: string)
    requires Harmless(s)
    ensures 0 < |s| <= MAX_FILENAME_LENGTH
  {
  }

  /** A result ends in a dot or a space exactly when the cut made it so. */
  lemma TailMeansCut(name: string)
    ensures var s := Sanitize(name); s != [] && (IsTail(s[|s| - 1]) <==> CutLeavesTail(name))
  {
    hide BaseName, Trim, Reserved, IsTail, Harmless;
    DownloadHarmless();
    if Trim(name) == [] || |BaseName(name)| <= MAX_FILENAME_LENGTH {
      ShortEndsWell(name);
    } else {
      LongBase(BaseName(name));
    }
  }

  lemma ShortEndsWell(name: string)
    requires Trim(name) == [] || |BaseName(name)| <= MAX_FILENAME_LENGTH
    ensures var s := Sanitize(name); s != [] && !IsTail(s[|s| - 1])
  {
    hide BaseName, Trim, Reserved, IsTail, Harmless;
    DownloadHarmless();
  }

  /** A base longer than 255 characters is no device name: it is cut. */
  lemma LongBase(base: string)
    requires |base| > MAX_FILENAME_LENGTH && !IsTail(base[|base| - 1])
    ensures FromBase(base) == base[..MAX_FILENAME_LENGTH]
  {
    hide Reserved, IsTail;
    LongNotReserved(base);
  }

  /** 254 letters, a dot and a letter: the cut leaves the dot, and the next cleaning takes it away. */
  lemma CleaningTwiceDiffers() returns (name: string)
    ensures |name| == 256 && Sanitize(Sanitize(name)) != Sanitize(name)
  {
    var letters := seq(254, _ => 'a');
    name := letters + ".b";
    assert name[255] == 'b' && name[254] == '.' && name[0] == 'a';
    PlainBase(name);
    SanitizeIdempotent(name);
  }

  /** A name without separators, controls and surrounding blanks is its own base. */
  lemma PlainBase(name: string)
    requires name != [] && !IsSpace(name[0]) && !IsTail(name[|name| - 1])
    requires forall c :: c in name ==> !IsSeparator(c) && !IsControl(c)
    ensures Trim(name) == name && BaseName(name) == name
  {
    hide LastComponent, DropControls, TrimStart, DropTail, IsSeparator, IsControl;
    assert LastComponent(name) == name;
    assert DropControls(name) == name;
    assert TrimStart(name) == name;
  }

  // ----- dedupeFilename

  /** A number in a template string. */
  function Decimal(n: nat): (s: string)
    ensures s != []
  {
    if n < 10 then [(n + 48) as char] else Decimal(n / 10) + [(n % 10 + 48) as char]
  }

  function DecimalValue(s: string): int {
    if s == [] then 0 else 10 * DecimalValue(s[..|s| - 1]) + s[|s| - 1] as int - 48
  }

  lemma {:induction false} DecimalReads(n: nat)
    ensures DecimalValue(Decimal(n)) == n
  {
    if n < 10 {
      assert DecimalValue(Decimal(n)[..0]) == 0;
    } else {
      DecimalReads(n / 10);
      assert Decimal(n)[..|Decimal(n)| - 1] == Decimal(n / 10);
    }
  }

  /** `${base} (${n})${ext}` */
  function Candidate(base: string, ext: string, n: nat): string {
    base + " (" + Decimal(n) + ")" + ext
  }

  lemma CandidateInjective(base: string, ext: string, m: nat, n: nat)
    ensures Candidate(base, ext, m) == Candidate(base, ext, n) ==> m == n
  {
    var a, b := Candidate(base, ext, m), Candidate(base, ext, n);
    if a == b {
      var lo := |base| + 2;
      var hi := |a| - |ext| - 1;
      assert a[lo..hi] == Decimal(m);
      assert b[lo..hi] == Decimal(n);
      DecimalReads(m);
      DecimalReads(n);
    }
  }

  function LastIndexOf(s: string, c: char): (i: int)
    ensures -1 <= i < |s|
    ensures i >= 0 ==> s[i] == c
    ensures forall j :: i < j < |s| ==> s[j] != c
  {
    if s == [] then -1
    else if s[|s| - 1] == c then |s| - 1
    else LastIndexOf(s[..|s| - 1], c)
  }

  function Base(name: string): string {
    var dot := LastIndexOf(name, '.');
    if dot > 0 then name[..dot] else name
  }

  function Ext(name: string): string {
    var dot := LastIndexOf(name, '.');
    if dot > 0 then name[dot..] else ""
  }

  /** The smallest number from n on whose candidate is free; taking a used candidate away cannot free another one. */
  function FirstFree(base: string, ext: string, used: set<string>, n: nat): nat
    decreases |used|
  {
    if Candidate(base, ext, n) !in used then n
    else FirstFree(base, ext, used - {Candidate(base, ext, n)}, n + 1)
  }

  lemma {:induction false} FirstFreeIsLeast(base: string, ext: string, used: set<string>, n: nat)
    ensures var k := FirstFree(base, ext, used, n);
      && n <= k <= n + |used|
      && Candidate(base, ext, k) !in used
      && forall j :: n <= j < k ==> Candidate(base, ext, j) in used
    decreases |used|
  {
    var c := Candidate(base, ext, n);
    if c in used {
      FirstFreeIsLeast(base, ext, used - {c}, n + 1);
      var k := FirstFree(base, ext, used, n);
      CandidateInjective(base, ext, n, k);
    }
  }

  function Dedupe(name: string, used: set<string>): string {
    if name !in used then name
    else Candidate(Base(name), Ext(name), FirstFree(Base(name), Ext(name), used, 1))
  }

  lemma BaseExt(name: string)
    ensures Base(name) + Ext(name) == name
  {
  }

  /** The name is fresh, and the search looks at no more candidates than there are names in use. */
  lemma DedupeFresh(name: string, used: set<string>)
    ensures Dedupe(name, used) !in used
    ensures name in used ==> 1 <= FirstFree(Base(name), Ext(name), used, 1) <= |used|
  {
    var base, ext := Base(name), Ext(name);
    FirstFreeIsLeast(base, ext, used, 1);
    if name in used {
      BaseExt(name);
      SkipOther(base, ext, used, 1, name);
      FirstFreeIsLeast(base, ext, used - {name}, 1);
    }
  }

  // ----- where the number goes

  /**
   * A name and its extension: from the last dot on, unless that dot is the first character, or there is none.
   */
  predicate IsStem(stem: string, ext: string) {
    || (stem != [] && ext != [] && ext[0] == '.' && forall i :: 1 <= i < |ext| ==> ext[i] != '.')
    || (ext == [] && forall i :: 1 <= i < |stem| ==> stem[i] != '.')
  }

  /** Every name is divided so in exactly one way. */
  lemma StemExists(name: string) returns (stem: string, ext: string)
    ensures name == stem + ext && IsStem(stem, ext)
  {
    stem, ext := Base(name), Ext(name);
    BaseExt(name);
  }

  lemma StemIs(name: string, stem: string, ext: string)
    requires name == stem + ext && IsStem(stem, ext)
    ensures Base(name) == stem && Ext(name) == ext
  {
    var dot := LastIndexOf(name, '.');
    if ext == [] {
      assert name == stem;
    } else {
      assert name[|stem|] == '.';
      assert forall i :: |stem| < i < |name| ==> name[i] == ext[i - |stem|];
      assert dot == |stem|;
    }
  }

  /**
   * A used name gets the smallest number that makes it free, in brackets and after a blank, between its stem and its
   * extension; so the extension stays where programs look for it.
   */
  lemma NumberBeforeExtension(name: string, used: set<string>, stem: string, ext: string) returns (k: nat)
    requires name in used && name == stem + ext && IsStem(stem, ext)
    ensures k >= 1 && Dedupe(name, used) == stem + " (" + Decimal(k) + ")" + ext
    ensures forall j :: 1 <= j < k ==> stem + " (" + Decimal(j) + ")" + ext in used
  {
    hide FirstFree, Base, Ext, Decimal, IsStem;
    StemIs(name, stem, ext);
    k := FirstFree(stem, ext, used, 1);
    FirstFreeIsLeast(stem, ext, used, 1);
    forall j | 1 <= j < k ensures stem + " (" + Decimal(j) + ")" + ext in used {
      assert Candidate(stem, ext, j) in used;
    }
  }

  /** A free name is taken as it is. */
  lemma FreeNameKept(name: string, used: set<string>)
    requires name !in used
    ensures Dedupe(name, used) == name
  {
  }

  // ----- what a made-up name looks like

  lemma {:induction false} DecimalDigits(n: nat)
    ensures forall c :: c in Decimal(n) ==> '0' <= c <= '9'
    ensures n < 10 ==> |Decimal(n)| == 1
    ensures n < 100 ==> |Decimal(n)| <= 2
  {
    if n >= 10 {
      DecimalDigits(n / 10);
    }
  }

  /** A name that stays inside one directory does so when a number is put into it. */
  lemma DedupeInside(name: string, used: set<string>)
    requires Inside(name)
    ensures Inside(Dedupe(name, used))
  {
    if name in used {
      var base, ext := Base(name), Ext(name);
      var n := FirstFree(base, ext, used, 1);
      BaseExt(name);
      hide Base, Ext, FirstFree, Decimal;
      NamePart(name);
      DecimalDigits(n);
      CandidateInside(base, ext, Decimal(n));
      assert Candidate(base, ext, n) == base + " (" + Decimal(n) + ")" + ext;
    }
  }

  lemma NamePart(name: string)
    requires name != []
    ensures Base(name) != [] && Base(name)[0] == name[0]
  {
  }

  lemma CandidateInside(base: string, ext: string, digits: string)
    requires base != [] && Inside(base + ext) && base[0] == (base + ext)[0]
    requires forall c :: c in digits ==> '0' <= c <= '9'
    ensures Inside(base + " (" + digits + ")" + ext)
  {
    hide IsSpace;
    var r := base + " (" + digits + ")" + ext;
    assert forall c :: c in base || c in ext ==> c in base + ext;
    assert r[|base|] == ' ' && |r| >= 4;
    assert forall c :: c in r ==> c in base || c in ext || c in digits || c in " ()";
  }

  /** The characters a number adds. */
  lemma DedupeLength(name: string, used: set<string>)
    ensures |Dedupe(name, used)| ==
      |name| + if name in used then 3 + |Decimal(FirstFree(Base(name), Ext(name), used, 1))| else 0
  {
    BaseExt(name);
  }

  /** A larger number has no fewer digits. */
  lemma {:induction false} DecimalGrows(m: nat, n: nat)
    requires m <= n
    ensures |Decimal(m)| <= |Decimal(n)|
  {
    if m >= 10 {
      DecimalGrows(m / 10, n / 10);
    }
  }

  /** Some number makes the name a free one and leaves it within the limit. */
  ghost predicate HasRoom(name: string, used: set<string>) {
    exists n: nat :: Fits(name, used, n)
  }

  predicate Fits(name: string, used: set<string>, n: nat) {
    1 <= n && |name| + 3 + |Decimal(n)| <= MAX_FILENAME_LENGTH && Candidate(Base(name), Ext(name), n) !in used
  }

  /** The limit of 255 characters does not survive: a harmless name keeps it exactly if it is free or has room. */
  lemma DedupeHarmless(name: string, used: set<string>)
    requires Harmless(name)
    ensures Harmless(Dedupe(name, used)) <==> name !in used || HasRoom(name, used)
  {
    hide Dedupe, Inside, FirstFree, Base, Ext, Decimal, Candidate;
    DedupeInside(name, used);
    DedupeLength(name, used);
    if name in used {
      RoomMeansFirst(name, used);
    }
  }

  /** If any number has room, the first free one has. */
  lemma RoomMeansFirst(name: string, used: set<string>)
    ensures HasRoom(name, used) <==>
      |name| + 3 + |Decimal(FirstFree(Base(name), Ext(name), used, 1))| <= MAX_FILENAME_LENGTH
  {
    hide FirstFree, Base, Ext, Decimal, Candidate;
    var k := FirstFree(Base(name), Ext(name), used, 1);
    FirstFreeIsLeast(Base(name), Ext(name), used, 1);
    if |name| + 3 + |Decimal(k)| <= MAX_FILENAME_LENGTH {
      assert Fits(name, used, k);
    }
    if HasRoom(name, used) {
      var n: nat :| Fits(name, used, n);
      DecimalGrows(k, n);
    }
  }

  /** 252 letters: a harmless name that is not harmless the second time. */
  lemma NumberBreaksLimit() returns (name: string)
    ensures Harmless(name) && !Harmless(Dedupe(name, {name}))
  {
    name := seq(252, _ => 'a');
    LongDedupeBreaks(name, {name});
  }

  /** Among fewer than a hundred names, those of at most 250 characters always have room. */
  lemma ShortDedupeHarmless(name: string, used: set<string>)
    requires Harmless(name) && |name| <= 250 && |used| < 100
    ensures Harmless(Dedupe(name, used))
  {
    hide Harmless, FirstFree, Base, Ext, Decimal, Dedupe, HasRoom;
    DedupeHarmless(name, used);
    if name in used {
      DedupeFresh(name, used);
      DecimalDigits(FirstFree(Base(name), Ext(name), used, 1));
      RoomMeansFirst(name, used);
    }
  }

  /** And a name of more than 251 characters never has. */
  lemma LongDedupeBreaks(name: string, used: set<string>)
    requires |name| > 251 && name in used
    ensures |Dedupe(name, used)| > MAX_FILENAME_LENGTH
  {
    hide Dedupe, FirstFree, Base, Ext;
    DedupeLength(name, used);
  }

  /** A used name that is no candidate does not matter to the search. */
  lemma {:induction false} SkipOther(base: string, ext: string, used: set<string>, n: nat, name: string)
    requires name in used && |name| == |base| + |ext|
    ensures FirstFree(base, ext, used, n) == FirstFree(base, ext, used - {name}, n)
    decreases |used|
  {
    var c := Candidate(base, ext, n);
    assert |c| > |name|;
    if c in used {
      SkipOther(base, ext, used - {c}, n + 1, name);
      assert used - {c} - {name} == used - {name} - {c};
    }
  }

  /** dedupeFilename: the chosen name and the set with it added. */
  method DedupeFilename(name: string, usedNames: set<string>) returns (saved: string, used': set<string>)
    ensures saved == Dedupe(name, usedNames) && saved !in usedNames
    ensures used' == usedNames + {saved}
  {
    DedupeFresh(name, usedNames);
    if name !in usedNames {
      return name, usedNames + {name};
    }
    var dot := LastIndexOf(name, '.');
    var base := if dot > 0 then name[..dot] else name;
    var ext := if dot > 0 then name[dot..] else "";
    ghost var k := FirstFree(base, ext, usedNames, 1);
    FirstFreeIsLeast(base, ext, usedNames, 1);
    var n := 2;
    saved := Candidate(base, ext, 1);
    while saved in usedNames
      invariant 2 <= n <= k + 1
      invariant saved == Candidate(base, ext, n - 1)
      invariant forall j :: 1 <= j < n - 1 ==> Candidate(base, ext, j) in usedNames
      decreases k + 1 - n
    {
      saved := Candidate(base, ext, n);
      n := n + 1;
    }
    assert n - 1 == k;
    used' := usedNames + {saved};
  }

  /** The names a batch is saved under, one after the other into the same directory. */
  function SavedNames(names: seq<string>): (saved: seq<string>)
    ensures |saved| == |names|
  {
    if names == [] then [] else
      var before := SavedNames(names[..|names| - 1]);
      before + [Dedupe(names[|names| - 1], NameSet(before))]
  }

  function NameSet(names: seq<string>): set<string> {
    set n | n in names
  }

  ghost predicate Distinct(s: seq<string>) {
    forall i, j :: 0 <= i < j < |s| ==> s[i] != s[j]
  }

  lemma {:induction false} SavedNamesInside(names: seq<string>)
    requires forall i :: 0 <= i < |names| ==> Inside(names[i])
    ensures forall i :: 0 <= i < |names| ==> Inside(SavedNames(names)[i])
  {
    hide Inside, Dedupe;
    if names != [] {
      var before := names[..|names| - 1];
      SavedNamesInside(before);
      DedupeInside(names[|names| - 1], NameSet(SavedNames(before)));
    }
  }

  lemma {:induction false} SavedNamesDistinct(names: seq<string>)
    ensures Distinct(SavedNames(names))
  {
    if names != [] {
      var before := names[..|names| - 1];
      SavedNamesDistinct(before);
      var s := SavedNames(before);
      assert SavedNames(names) == s + [Dedupe(names[|names| - 1], NameSet(s))];
      var d := Dedupe(names[|names| - 1], NameSet(s));
      DedupeFresh(names[|names| - 1], NameSet(s));
      forall i, j | 0 <= i < j < |s + [d]|
        ensures (s + [d])[i] != (s + [d])[j]
      {
        if j < |s| {
          assert s[i] != s[j];
        } else {
          assert s[i] in NameSet(s);
        }
      }
    }
  }
}
