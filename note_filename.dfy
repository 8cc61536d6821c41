/**
 * The filename rule of the note-saving tool: the title is sanitised by
 * keeping only alphanumeric characters, spaces, `-` and `_`, and the note
 * is stored as `notes/<sanitised title>.txt`.
 */
module NoteFilename {

  /** The characters a sanitised title may keep: ASCII letters and digits, space, `-` and `_`. */
  predicate IsAllowed(c: char)
  {
    ('a' <= c <= 'z') || ('A' <= c <= 'Z') || ('0' <= c <= '9') || c == ' ' || c == '-' || c == '_'
  }

  /** Every character of `s` is allowed. */
  predicate AllAllowed(s: string)
  {
    forall i | 0 <= i < |s| :: IsAllowed(s[i])
  }

  /** What sanitising keeps of one character: the character itself when allowed, nothing otherwise. */
  function Keep(c: char): string
  {
    if IsAllowed(c) then [c] else []
  }

  /** The sanitised title: the allowed characters of `title`, in their original order. */
  function SafeTitle(title: string): (r: string)
    ensures |r| <= |title|
    ensures AllAllowed(r)
    decreases |title|
  {
    if title == [] then []
    else Keep(title[0]) + SafeTitle(title[1..])
  }

  /** Sanitising distributes over concatenation, so the kept characters stay in order. */
  lemma {:induction false} SafeTitleAppend(a: string, b: string)
    ensures SafeTitle(a + b) == SafeTitle(a) + SafeTitle(b)
    decreases |a|
  {
    if a == [] {
      assert a + b == b;
    } else {
      var rest := a[1..];
      assert (a + b)[0] == a[0];
      assert (a + b)[1..] == rest + b;
      calc {
        SafeTitle(a + b);
        Keep(a[0]) + SafeTitle(rest + b);
        { SafeTitleAppend(rest, b); }
        Keep(a[0]) + (SafeTitle(rest) + SafeTitle(b));
        (Keep(a[0]) + SafeTitle(rest)) + SafeTitle(b);
        SafeTitle(a) + SafeTitle(b);
      }
    }
  }

  /** A title is left unchanged exactly when all of its characters are allowed. */
  lemma {:induction false} SafeTitleFixed(title: string)
    ensures SafeTitle(title) == title <==> AllAllowed(title)
    decreases |title|
  {
    if title != [] && AllAllowed(title) {
      assert AllAllowed(title[1..]) by {
        forall i | 0 <= i < |title| - 1 ensures IsAllowed(title[1..][i]) {
          assert title[1..][i] == title[i + 1];
        }
      }
      SafeTitleFixed(title[1..]);
      assert [title[0]] + title[1..] == title;
    }
  }

  /** Sanitising twice is sanitising once. */
  lemma SafeTitleIdempotent(title: string)
    ensures SafeTitle(SafeTitle(title)) == SafeTitle(title)
  {
    SafeTitleFixed(SafeTitle(title));
  }

  /**
   * The sanitised title keeps every allowed character as often as the
   * title has it, and no other character.
   */
  lemma {:induction false} SafeTitleKeepsAllowed(title: string, c: char)
    ensures multiset(SafeTitle(title))[c] == if IsAllowed(c) then multiset(title)[c] else 0
    decreases |title|
  {
    if title != [] {
      SafeTitleKeepsAllowed(title[1..], c);
      assert title == [title[0]] + title[1..];
      assert multiset(title) == multiset([title[0]]) + multiset(title[1..]);
    }
  }

  const NotesDir: string := "notes/"
  const Extension: string := ".txt"

  /**
   * The note's path, `notes/<sanitised title>.txt`: it starts with the
   * notes directory, ends with the extension, and the part in between has
   * no `/` and no `.`, so the name cannot leave the notes directory.
   */
  function NotePath(title: string): (path: string)
    ensures |path| == |NotesDir| + |SafeTitle(title)| + |Extension|
    ensures path[..|NotesDir|] == NotesDir
    ensures path[|path| - |Extension|..] == Extension
    ensures forall i | |NotesDir| <= i < |path| - |Extension| :: path[i] != '/' && path[i] != '.'
  {
    var stem := SafeTitle(title);
    var path := NotesDir + stem + Extension;
    assert forall i | |NotesDir| <= i < |path| - |Extension| :: path[i] == stem[i - |NotesDir|];
    path
  }

  /** The only `/` in a note's path is the one ending the directory name. */
  lemma OnlySeparator(title: string)
    ensures forall i | 0 <= i < |NotePath(title)| && NotePath(title)[i] == '/' :: i == |NotesDir| - 1
  {
    var path := NotePath(title);
    forall i | 0 <= i < |path| && path[i] == '/' ensures i == |NotesDir| - 1 {
      if i < |NotesDir| {
        assert path[i] == NotesDir[i];
      }
    }
  }
}
