/**
 * What sanitizeFilename does, as laws about names: directories, controls, blanks around a name and dots behind it make
 * no difference, and a name without any of them is kept, cut, or refused as a device name. Every name reduces to such
 * a one, so these laws leave nothing open.
 */
module Cleaning {
  import opened Filenames

  // ----- the classes of characters, by their codes

  predicate WhiteSpace(c: char) {
    var n := c as int;
    || 9 <= n <= 13 || n == 32 || n == 160 || n == 5760 || 8192 <= n <= 8202
    || n == 8232 || n == 8233 || n == 8239 || n == 8287 || n == 12288 || n == 65279
  }

  lemma Classes(c: char)
    ensures WhiteSpace(c) <==> IsSpace(c)
    ensures c == '.' || WhiteSpace(c) <==> IsTail(c)
    ensures c as int < 32 || c as int == 127 <==> IsControl(c)
    ensures c == '/' || c == '\\' <==> IsSeparator(c)
  {
  }

  // ----- the pipeline behind the last component

  function FromComponent(x: string): string {
    FromBase(DropTail(TrimStart(x), IsTail))
  }

  lemma {:induction false} DropTwice(x: string)
    ensures DropTail(DropTail(x, IsSpace), IsTail) == DropTail(x, IsTail)
  {
    if x != [] && IsSpace(x[|x| - 1]) {
      DropTwice(x[..|x| - 1]);
    }
  }

  lemma DropTailSnoc(x: string, c: char)
    requires IsTail(c)
    ensures DropTail(x + [c], IsTail) == DropTail(x, IsTail)
  {
    assert (x + [c])[..|x|] == x;
  }

  lemma DownloadComponent()
    ensures FromComponent(DOWNLOAD) == DOWNLOAD && FromComponent([]) == DOWNLOAD
  {
    hide FromBase, DropTail, TrimStart, IsTail, IsSpace;
    DownloadPlain();
    assert TrimStart(DOWNLOAD) == DOWNLOAD && TrimStart([]) == [];
    assert DropTail(DOWNLOAD, IsTail) == DOWNLOAD && DropTail([], IsTail) == [];
    FromDownload();
  }

  lemma FromDownload()
    ensures FromBase(DOWNLOAD) == DOWNLOAD && FromBase([]) == DOWNLOAD
  {
    DownloadHarmless();
  }

  /** The whole function is what happens to the last component once its controls are dropped. */
  lemma SanitizeIs(s: string)
    ensures Sanitize(s) == FromComponent(DropControls(LastComponent(s)))
  {
    hide LastComponent, DropControls, TrimStart, DropTail, FromBase, IsSpace, IsTail, IsControl;
    ByBase(s);
    DownloadComponent();
    if LastComponent(s) == [] {
      DownloadPlain();
      assert DropControls([]) == [] && DropControls(DOWNLOAD) == DOWNLOAD;
      DropTwice(TrimStart(DOWNLOAD));
    } else {
      DropTwice(TrimStart(DropControls(LastComponent(s))));
    }
  }

  lemma ByBase(s: string)
    ensures Sanitize(s) == FromBase(BaseName(s))
  {
    hide BaseName, FromBase, Trim;
    TrimBlank(s);
    if Blank(s) {
      BlankIsDownload(s);
    }
  }

  lemma ControlsSnoc(x: string, c: char)
    ensures DropControls(x + [c]) == DropControls(x) + if IsControl(c) then [] else [c]
  {
    assert (x + [c])[..|x|] == x;
  }

  // ----- the laws

  /** Control characters anywhere in a name make no difference. */
  lemma ControlsVanish(p: string, c: char, q: string)
    requires c < ' ' || c == '\U{007F}'
    ensures Sanitize(p + [c] + q) == Sanitize(p + q)
  {
    hide FromComponent, Sanitize;
    SanitizeIs(p + [c] + q);
    SanitizeIs(p + q);
    ControlsVanishBehind(p, c, q);
  }

  /** Equal so far, equal with one more character. */
  lemma BehindSnoc(x: string, y: string, d: char)
    requires DropControls(LastComponent(x)) == DropControls(LastComponent(y))
    ensures DropControls(LastComponent(x + [d])) == DropControls(LastComponent(y + [d]))
  {
    hide LastComponent, DropControls, IsControl, IsSeparator;
    LastComponentSnoc(x, d);
    LastComponentSnoc(y, d);
    ControlsSnoc(LastComponent(x), d);
    ControlsSnoc(LastComponent(y), d);
  }

  lemma ControlBehind(p: string, c: char)
    requires c < ' ' || c == '\U{007F}'
    ensures DropControls(LastComponent(p + [c])) == DropControls(LastComponent(p))
  {
    hide LastComponent, DropControls;
    LastComponentSnoc(p, c);
    ControlsSnoc(LastComponent(p), c);
  }

  lemma {:induction false} ControlsVanishBehind(p: string, c: char, q: string)
    requires c < ' ' || c == '\U{007F}'
    ensures DropControls(LastComponent(p + [c] + q)) == DropControls(LastComponent(p + q))
  {
    hide *;
    if q == [] {
      assert p + [c] + q == p + [c] && p + q == p;
      ControlBehind(p, c);
    } else {
      var front, d := q[..|q| - 1], q[|q| - 1];
      ControlsVanishBehind(p, c, front);
      BehindSnoc(p + [c] + front, p + front, d);
      assert p + [c] + q == (p + [c] + front) + [d];
      assert p + q == (p + front) + [d];
    }
  }

  /** Nor do blanks in front of it. */
  lemma LeadingBlankVanishes(c: char, s: string)
    requires WhiteSpace(c)
    ensures Sanitize([c] + s) == Sanitize(s)
  {
    Classes(c);
    hide Sanitize, FromBase, DropTail, LastComponent, DropControls, TrimStart;
    SanitizeIs([c] + s);
    SanitizeIs(s);
    LeadComponent(c, s);
    LeadControls(c, LastComponent(s));
    LeadTrim(c, DropControls(LastComponent(s)));
  }

  /** The same string, or the same with c in front. */
  predicate Led(c: char, x: string, y: string) {
    x == y || x == [c] + y
  }

  lemma LedSnoc(c: char, x: string, y: string, d: char)
    requires Led(c, x, y)
    ensures Led(c, x + [d], y + [d])
  {
    assert [c] + y + [d] == [c] + (y + [d]);
  }

  lemma {:induction false} LeadComponent(c: char, s: string)
    ensures Led(c, LastComponent([c] + s), LastComponent(s))
  {
    hide LastComponent, IsSeparator;
    if s == [] {
      LastComponentSnoc([], c);
      assert [c] + s == [] + [c];
      assert LastComponent([]) == [];
    } else {
      hide Led;
      var front, d := s[..|s| - 1], s[|s| - 1];
      LeadComponent(c, front);
      LastComponentSnoc([c] + front, d);
      LastComponentSnoc(front, d);
      LedSnoc(c, LastComponent([c] + front), LastComponent(front), d);
      LedSame(c);
      assert [c] + s == ([c] + front) + [d];
      assert s == front + [d];
    }
  }

  lemma LedSame(c: char)
    ensures Led(c, [], [])
  {
  }

  lemma {:induction false} LeadControls(c: char, x: string)
    ensures Led(c, DropControls([c] + x), DropControls(x))
  {
    hide DropControls, IsControl;
    if x == [] {
      ControlsSnoc([], c);
      assert [c] + x == [] + [c];
      assert DropControls([]) == [];
    } else {
      hide Led;
      var front, d := x[..|x| - 1], x[|x| - 1];
      LeadControls(c, front);
      ControlsSnoc([c] + front, d);
      ControlsSnoc(front, d);
      LedSnoc(c, DropControls([c] + front), DropControls(front), d);
      assert [c] + x == ([c] + front) + [d];
      assert x == front + [d];
      assert DropControls([c] + front) + [] == DropControls([c] + front);
      assert DropControls(front) + [] == DropControls(front);
    }
  }

  lemma LeadTrim(c: char, x: string)
    requires IsSpace(c)
    ensures TrimStart([c] + x) == TrimStart(x)
  {
    assert ([c] + x)[1..] == x;
  }

  /** Nor do blanks and dots behind it. */
  lemma TrailingTailVanishes(s: string, c: char)
    requires c == '.' || WhiteSpace(c)
    ensures Sanitize(s + [c]) == Sanitize(s)
  {
    hide *;
    Classes(c);
    SanitizeIs(s + [c]);
    SanitizeIs(s);
    TailBehind(s, c);
    ComponentTail(DropControls(LastComponent(s)), c);
  }

  lemma TailBehind(s: string, c: char)
    requires IsTail(c)
    ensures DropControls(LastComponent(s + [c])) == DropControls(LastComponent(s))
      || DropControls(LastComponent(s + [c])) == DropControls(LastComponent(s)) + [c]
  {
    hide LastComponent, DropControls;
    LastComponentSnoc(s, c);
    ControlsSnoc(LastComponent(s), c);
  }

  lemma ComponentTail(x: string, c: char)
    requires IsTail(c)
    ensures FromComponent(x + [c]) == FromComponent(x)
  {
    hide TrimStart, DropTail, FromBase, IsTail;
    TailTrim(x, c);
  }

  lemma TailTrim(x: string, c: char)
    requires IsTail(c)
    ensures DropTail(TrimStart(x + [c]), IsTail) == DropTail(TrimStart(x), IsTail)
  {
    TrimStartSnoc(x, c);
    if TrimStart(x) == [] {
      assert [] + [c] == [c];
      DropTailSnoc([], c);
    } else {
      DropTailSnoc(TrimStart(x), c);
    }
  }

  lemma {:induction false} TrimStartSnoc(x: string, c: char)
    ensures TrimStart(x + [c]) ==
      if TrimStart(x) != [] then TrimStart(x) + [c] else if IsSpace(c) then [] else [c]
  {
    if x == [] {
      assert x + [c] == [c] && [c][1..] == [];
    } else if IsSpace(x[0]) {
      TrimStartSnoc(x[1..], c);
      assert (x + [c])[1..] == x[1..] + [c];
    }
  }

  /** The same letters, in either case. */
  predicate SameLetters(s: string, word: string) {
    |s| == |word| && forall i :: 0 <= i < |s| ==>
      s[i] == word[i] || ('A' <= word[i] <= 'Z' && s[i] as int == word[i] as int + 32)
  }

  /** The device names of Windows. */
  predicate IsDevice(s: string) {
    || SameLetters(s, "CON") || SameLetters(s, "PRN") || SameLetters(s, "AUX") || SameLetters(s, "NUL")
    || (|s| == 4 && (SameLetters(s[..3], "COM") || SameLetters(s[..3], "LPT")) && '1' <= s[3] <= '9')
  }

  /** No directory, no control, no blank in front, and no blank or dot behind. */
  predicate Plain(s: string) {
    && s != [] && !WhiteSpace(s[0]) && s[|s| - 1] != '.' && !WhiteSpace(s[|s| - 1])
    && forall i :: 0 <= i < |s| ==> s[i] >= ' ' && s[i] != '\U{007F}' && s[i] != '/' && s[i] != '\\'
  }

  /** A plain name is kept, unless it is a device name, and cut at 255 characters. */
  lemma PlainNames(s: string)
    requires Plain(s)
    ensures Sanitize(s) == if IsDevice(s) then "download" else if |s| > 255 then s[..255] else s
  {
    hide Sanitize, Reserved, IsDevice, IsTail, IsSpace, WhiteSpace;
    Classes(s[0]);
    Classes(s[|s| - 1]);
    ByBase(s);
    PlainChars(s);
    PlainBase(s);
    ReservedIsDevice(s);
    NotDots(s);
  }

  lemma PlainChars(s: string)
    requires Plain(s)
    ensures forall c :: c in s ==> !IsSeparator(c) && !IsControl(c)
  {
    hide WhiteSpace;
  }

  lemma NotDots(s: string)
    requires s != [] && !IsTail(s[|s| - 1])
    ensures s != "." && s != ".."
  {
  }

  lemma ReservedIsDevice(s: string)
    requires s != [] && !IsTail(s[|s| - 1])
    ensures Reserved(s) <==> IsDevice(s)
  {
    hide SameLetters, Upper, IsDevice;
    UpperEnd(s);
    assert DropTail(Upper(s), c => c == '.') == Upper(s);
    DeviceUpper(s);
  }

  lemma UpperEnd(s: string)
    requires s != [] && !IsTail(s[|s| - 1])
    ensures |Upper(s)| == |s| && Upper(s)[|s| - 1] != '.'
  {
  }

  lemma UpperIs(s: string, word: string)
    requires forall i :: 0 <= i < |word| ==> 'A' <= word[i] <= 'Z' || '1' <= word[i] <= '9'
    ensures Upper(s) == word <==> SameLetters(s, word)
  {
    assert |Upper(s)| == |s|;
    if |s| == |word| {
      forall i | 0 <= i < |s|
        ensures Upper(s)[i] == word[i] <==>
          s[i] == word[i] || ('A' <= word[i] <= 'Z' && s[i] as int == word[i] as int + 32)
      {
        UpperAt(s[i], word[i]);
      }
    }
  }

  /** One letter. */
  lemma UpperAt(c: char, w: char)
    requires 'A' <= w <= 'Z' || '1' <= w <= '9'
    ensures (if 'a' <= c <= 'z' then (c as int - 32) as char else c) == w <==>
      c == w || ('A' <= w <= 'Z' && c as int == w as int + 32)
  {
  }

  lemma DeviceUpper(s: string)
    ensures Upper(s) in WINDOWS_RESERVED <==> IsDevice(s)
  {
    hide SameLetters, Upper;
    UpperIs(s, "CON");
    UpperIs(s, "PRN");
    UpperIs(s, "AUX");
    UpperIs(s, "NUL");
    Ports(s, "COM");
    Ports(s, "LPT");
    assert "COM" + "1" == "COM1" && "COM" + "2" == "COM2" && "COM" + "3" == "COM3";
    assert "COM" + "4" == "COM4" && "COM" + "5" == "COM5" && "COM" + "6" == "COM6";
    assert "COM" + "7" == "COM7" && "COM" + "8" == "COM8" && "COM" + "9" == "COM9";
    assert "LPT" + "1" == "LPT1" && "LPT" + "2" == "LPT2" && "LPT" + "3" == "LPT3";
    assert "LPT" + "4" == "LPT4" && "LPT" + "5" == "LPT5" && "LPT" + "6" == "LPT6";
    assert "LPT" + "7" == "LPT7" && "LPT" + "8" == "LPT8" && "LPT" + "9" == "LPT9";
  }

  /** One of the nine ports of a kind. */
  lemma Ports(s: string, kind: string)
    requires |kind| == 3 && forall i :: 0 <= i < 3 ==> 'A' <= kind[i] <= 'Z'
    ensures (|s| == 4 && SameLetters(s[..3], kind) && '1' <= s[3] <= '9') <==>
      Upper(s) in {
        kind + "1", kind + "2", kind + "3", kind + "4", kind + "5", kind + "6", kind + "7", kind + "8", kind + "9"}
  {
    hide Upper;
    Port(s, kind, '1');
    Port(s, kind, '2');
    Port(s, kind, '3');
    Port(s, kind, '4');
    Port(s, kind, '5');
    Port(s, kind, '6');
    Port(s, kind, '7');
    Port(s, kind, '8');
    Port(s, kind, '9');
  }

  lemma Port(s: string, kind: string, d: char)
    requires |kind| == 3 && (forall i :: 0 <= i < 3 ==> 'A' <= kind[i] <= 'Z') && '1' <= d <= '9'
    ensures Upper(s) == kind + [d] <==> |s| == 4 && SameLetters(s[..3], kind) && s[3] == d
  {
    var word := kind + [d];
    UpperIs(s, word);
    hide Upper;
    if |s| == 4 {
      assert s == s[..3] + [s[3]];
      assert word[3] == d && forall i :: 0 <= i < 3 ==> word[i] == kind[i];
      if SameLetters(s, word) {
        assert s[3] == word[3];
        assert forall i :: 0 <= i < 3 ==> s[..3][i] == s[i];
      }
      if SameLetters(s[..3], kind) && s[3] == d {
        assert forall i :: 0 <= i < 3 ==> s[i] == s[..3][i];
        assert SameLetters(s, word);
      }
    }
  }

  /** And no name at all becomes "download". */
  lemma NoName()
    ensures Sanitize("") == "download"
  {
    BlankIsDownload("");
  }
}
