/** The id of a labelled select (project/src/components/ui/Select.tsx): the
    given id when it is non-empty, otherwise the label in lower case with
    every run of whitespace turned into one hyphen. (`label` is a keyword
    here, so the label is called `caption`.) */
module Select {
  import opened Common

  /** Drops the whitespace at the front. */
  function DropSpaces(s: string): (r: string)
    ensures |r| <= |s|
    ensures r == [] || !IsSpace(r[0])
  {
    if s != [] && IsSpace(s[0]) then DropSpaces(s[1..]) else s
  }

  /** `.replace(/\s+/g, '-')`: every maximal run of whitespace becomes one '-'. */
  function Collapse(s: string): string
    decreases |s|
  {
    if s == [] then []
    else if IsSpace(s[0]) then "-" + Collapse(DropSpaces(s[1..]))
    else [s[0]] + Collapse(s[1..])
  }

  /** The caption turned into an id. */
  function Slug(caption: string): string {
    Collapse(Lower(caption))
  }

  /** selectId; None stands for `undefined`. */
  function SelectId(id: Option<string>, caption: Option<string>): (r: Option<string>)
    ensures Truthy(id) ==> r == id
    ensures !Truthy(id) && caption.Some? ==> r == Some(Slug(caption.value))
    ensures !Truthy(id) && caption.None? ==> r == None
  {
    if Truthy(id) then id else if caption.Some? then Some(Slug(caption.value)) else None
  }

  predicate NoUpper(s: string) {
    forall k :: 0 <= k < |s| ==> !('A' <= s[k] <= 'Z')
  }

  lemma {:induction false} CollapseNoSpace(s: string)
    ensures NoSpace(Collapse(s))
    decreases |s|
  {
    if s != [] {
      if IsSpace(s[0]) {
        CollapseNoSpace(DropSpaces(s[1..]));
      } else {
        CollapseNoSpace(s[1..]);
      }
    }
  }

  lemma {:induction false} DropSpacesSuffix(s: string)
    ensures exists n :: 0 <= n <= |s| && DropSpaces(s) == s[n..]
    decreases |s|
  {
    if s != [] && IsSpace(s[0]) {
      DropSpacesSuffix(s[1..]);
      var n :| 0 <= n <= |s[1..]| && DropSpaces(s[1..]) == s[1..][n..];
      assert s[1..][n..] == s[n + 1..];
    } else {
      assert s == s[0..];
    }
  }

  lemma {:induction false} CollapseNoUpper(s: string)
    requires NoUpper(s)
    ensures NoUpper(Collapse(s))
    decreases |s|
  {
    if s != [] {
      if IsSpace(s[0]) {
        DropSpacesSuffix(s[1..]);
        CollapseNoUpper(DropSpaces(s[1..]));
      } else {
        CollapseNoUpper(s[1..]);
      }
    }
  }

  lemma {:induction false} CollapseKeepsNoSpace(s: string)
    requires NoSpace(s)
    ensures Collapse(s) == s
    decreases |s|
  {
    if s != [] {
      CollapseKeepsNoSpace(s[1..]);
    }
  }

  /** The id has no whitespace, and turning it into an id again changes
      nothing. */
  lemma SlugProperties(caption: string)
    ensures NoSpace(Slug(caption))
    ensures Slug(Slug(caption)) == Slug(caption)
  {
    var t := Lower(caption);
    CollapseNoSpace(t);
    CollapseNoUpper(t);
    var u := Collapse(t);
    assert Lower(u) == u;
    CollapseKeepsNoSpace(u);
  }

  /** A run of several kinds of whitespace gives a single '-'. */
  lemma SlugExample()
    ensures Slug("To \tB") == "to-b"
  {
    var t := Lower("To \tB");
    assert t == "to \tb";
    assert t[2..][1..] == t[3..] && t[3..][1..] == t[4..];
    assert DropSpaces(t[4..]) == t[4..];
    assert DropSpaces(t[3..]) == t[4..];
    assert Collapse(t[4..]) == "b";
    assert Collapse(t[2..]) == "-b";
  }
}
