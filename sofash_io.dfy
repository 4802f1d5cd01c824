/**
 * libsofash io_posix.c: bounded string concatenation into a caller's
 * character buffer and the two path builders that use it.
 *
 * A buffer is an array of chars holding a NUL-terminated C string; a C
 * string passed by value is given by its characters without the
 * terminating NUL.
 */
module SofashIo {

  const Nul: char := '\0'

  /** The directory suffix appended to the home directory (dir_suffix). */
  const DirSuffix: string := ".sofash/"

  /** sizeof(dir_suffix): the suffix's characters plus its terminator. */
  const DirSuffixSize: nat := |DirSuffix| + 1

  /** The characters of a C string: none of them is NUL. */
  predicate NoNul(s: seq<char>)
  {
    forall i :: 0 <= i < |s| ==> s[i] != Nul
  }

  predicate HasNul(s: seq<char>)
  {
    exists i :: 0 <= i < |s| && s[i] == Nul
  }

  /** strlen: the index of the first NUL. */
  function StrLen(s: seq<char>): (n: nat)
    requires HasNul(s)
    ensures n < |s| && s[n] == Nul && NoNul(s[..n])
  {
    if s[0] == Nul then 0
    else
      assert HasNul(s[1..]) by {
        var i :| 0 <= i < |s| && s[i] == Nul;
        assert s[1..][i - 1] == Nul;
      }
      1 + StrLen(s[1..])
  }

  /** The C string a buffer holds. */
  function CString(s: seq<char>): (c: seq<char>)
    requires HasNul(s)
    ensures NoNul(c) && |c| < |s|
  {
    s[..StrLen(s)]
  }

  lemma StrLenUnique(s: seq<char>, n: nat)
    requires n < |s| && s[n] == Nul && NoNul(s[..n])
    ensures HasNul(s) && StrLen(s) == n
  {
  }

  function Min(a: nat, b: nat): nat
  {
    if a <= b then a else b
  }

  /** strlen on a buffer, by scanning for the terminator. */
  method CStrLen(buf: array<char>) returns (n: nat)
    requires HasNul(buf[..])
    ensures n == StrLen(buf[..])
  {
    n := 0;
    while buf[n] != Nul
      invariant n <= StrLen(buf[..])
      invariant forall k :: 0 <= k < n ==> buf[k] != Nul
      decreases StrLen(buf[..]) - n
    {
      n := n + 1;
    }
  }

  /**
   * sofash_strncat: appends at most `count` characters of `src` to the C
   * string in `dest`, but only when strlen(dest) + count + 1 <= destSize;
   * otherwise it returns NULL (here: false) and leaves `dest` untouched.
   * On success the new string still fits: its length is below destSize.
   */
  method StrNCat(dest: array<char>, destSize: nat, src: seq<char>, count: nat) returns (ok: bool)
    requires HasNul(dest[..]) && destSize <= dest.Length
    requires NoNul(src)
    modifies dest
    ensures ok <==> StrLen(old(dest[..])) + count + 1 <= destSize
    ensures !ok ==> dest[..] == old(dest[..])
    ensures ok ==> (HasNul(dest[..])
      && CString(dest[..]) == CString(old(dest[..])) + src[..Min(count, |src|)]
      && StrLen(dest[..]) < destSize)
    ensures ok ==> forall k :: StrLen(dest[..]) < k < dest.Length ==> dest[k] == old(dest[k])
  {
    var len := CStrLen(dest);
    if len + count + 1 > destSize {
      return false;
    }
    ghost var before := dest[..len];
    var n := Min(count, |src|);
    var i := 0;
    while i < n
      invariant 0 <= i <= n
      invariant dest[..len] == before
      invariant forall k :: 0 <= k < i ==> dest[len + k] == src[k]
      invariant forall k :: len + i <= k < dest.Length ==> dest[k] == old(dest[k])
    {
      dest[len + i] := src[i];
      i := i + 1;
    }
    dest[len + n] := Nul;
    assert dest[..len + n] == before + src[..n];
    StrLenUnique(dest[..], len + n);
    return true;
  }

  /**
   * sofash_io_create_filename: allocates dirlen + filename_length + 1 bytes,
   * one more when `dirname[dirlen] != '/'`, and fills them by three appends:
   * dirname, then "/" under the same test, then filename. The test reads the
   * terminator of dirname, so it always holds: the separator is always
   * inserted and the buffer always has the extra byte, even when dirname
   * already ends in '/'. None of the appends is refused. A failed
   * allocation (`allocFails`) returns NULL.
   */
  method CreateFilename(dirname: seq<char>, filename: seq<char>, filenameLength: nat, allocFails: bool)
    returns (name: array?<char>)
    requires NoNul(dirname) && NoNul(filename)
    ensures name == null <==> allocFails
    ensures name != null ==> (
      fresh(name) && name.Length == |dirname| + filenameLength + 2 && HasNul(name[..])
      && CString(name[..]) == dirname + "/" + filename[..Min(filenameLength, |filename|)])
  {
    var dirlen := |dirname|;
    var terminated := dirname + [Nul];
    var destSize := dirlen + filenameLength + 1;
    if terminated[dirlen] != '/' {
      destSize := destSize + 1;
    }
    if allocFails {
      return null;
    }
    name := new char[destSize](_ => Nul);
    name[0] := Nul;
    assert StrLen(name[..]) == 0;
    var ok1 := StrNCat(name, destSize, dirname, dirlen);
    assert dirname[..Min(dirlen, |dirname|)] == dirname;
    assert ok1 && CString(name[..]) == dirname;
    if terminated[dirlen] != '/' {
      var ok2 := StrNCat(name, destSize, "/", 1);
      assert ok2 && CString(name[..]) == dirname + "/";
    }
    var ok3 := StrNCat(name, destSize, filename, filenameLength);
  }

  /**
   * sofash_get_default_dirname with the home directory given: clears
   * strbuf, then appends home, "/" (under the same always-true terminator
   * test) and dir_suffix with count sizeof(dir_suffix). Each append can be
   * refused, which returns false and leaves what was appended so far. The
   * last append asks for strlen + 9 + 1 bytes, one more than the result
   * needs, so success needs |home| + 11 <= buffsize.
   */
  method GetDefaultDirname(strbuf: array<char>, buffsize: nat, home: seq<char>) returns (ok: bool)
    requires 1 <= strbuf.Length && buffsize <= strbuf.Length
    requires NoNul(home)
    modifies strbuf
    ensures HasNul(strbuf[..])
    ensures ok <==> |home| + 11 <= buffsize
    ensures ok ==> CString(strbuf[..]) == home + "/" + DirSuffix
    ensures !ok ==> (CString(strbuf[..]) ==
      if |home| + 2 <= buffsize then home + "/"
      else if |home| + 1 <= buffsize then home
      else [])
  {
    strbuf[0] := Nul;
    assert StrLen(strbuf[..]) == 0;
    var len := |home|;
    var appended := StrNCat(strbuf, buffsize, home, len);
    if !appended {
      return false;
    }
    assert home[..Min(len, |home|)] == home;
    var terminated := home + [Nul];
    if terminated[len] != '/' {
      appended := StrNCat(strbuf, buffsize, "/", 1);
      if !appended {
        return false;
      }
    }
    ok := StrNCat(strbuf, buffsize, DirSuffix, DirSuffixSize);
    assert DirSuffix[..Min(DirSuffixSize, |DirSuffix|)] == DirSuffix;
  }
}
