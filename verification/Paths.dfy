/**
 `_sealed_path` of files.py: joining a stored name to the upload folder, normalising, and accepting the result only
 inside the folder. Paths are sequences of components below the root; symbolic links are not modelled.
 */
module Paths {
  /** The text between slashes. */
  function Split(s: string): (parts: seq<string>)
    ensures parts != []
  {
    if s == "" then [""]
    else
      var rest := Split(s[1..]);
      if s[0] == '/' then [""] + rest else [[s[0]] + rest[0]] + rest[1..]
  }

  function Walk(dir: seq<string>, parts: seq<string>): seq<string>
    decreases |parts|
  {
    if parts == [] then dir
    else if parts[0] == "" || parts[0] == "." then Walk(dir, parts[1..])
    else if parts[0] == ".." then Walk(if dir == [] then [] else dir[..|dir| - 1], parts[1..])
    else Walk(dir + [parts[0]], parts[1..])
  }

  /** `realpath(join(folder, name))`: an absolute name replaces the folder. */
  function Target(folder: seq<string>, name: string): seq<string> {
    Walk(if name != "" && name[0] == '/' then [] else folder, Split(name))
  }

  /** `commonpath([folder, target]) == folder`. */
  predicate Sealed(folder: seq<string>, name: string) {
    folder <= Target(folder, name)
  }

  // ---------- generated names ----------

  const EXTENSIONS: set<string> := {".png", ".jpg", ".jpeg", ".gif", ".pdf", ".txt"}

  predicate IsHex(s: string) {
    forall i :: 0 <= i < |s| ==> '0' <= s[i] <= '9' || 'a' <= s[i] <= 'f'
  }

  /** `token_hex(16)` followed by an allowed extension. */
  ghost predicate Generated(name: string) {
    |name| >= 32 && IsHex(name[..32]) && name[32..] in EXTENSIONS
  }

  lemma {:induction false} OnePart(s: string)
    requires forall i :: 0 <= i < |s| ==> s[i] != '/'
    ensures Split(s) == [s]
  {
    if s != "" {
      OnePart(s[1..]);
      assert s == [s[0]] + s[1..];
    }
  }

  lemma NoSlash(name: string)
    requires Generated(name)
    ensures forall i :: 0 <= i < |name| ==> name[i] != '/'
  {
    forall i | 0 <= i < |name|
      ensures name[i] != '/'
    {
      if i < 32 {
        assert name[i] == name[..32][i];
      } else {
        assert name[i] == name[32..][i - 32];
      }
    }
  }

  /** A generated name always resolves to a file directly inside the folder, and to a different one for each name. */
  lemma GeneratedIsSealed(folder: seq<string>, name: string)
    requires Generated(name)
    ensures Target(folder, name) == folder + [name] && Sealed(folder, name)
  {
    NoSlash(name);
    OnePart(name);
    assert Walk(folder + [name], []) == folder + [name];
    assert [name][1..] == [];
  }

  /** How far a walk climbs above where it started, at most. */
  function Climb(depth: int, parts: seq<string>): int
    decreases |parts|
  {
    if parts == [] then 0
    else
      var d := if parts[0] == "" || parts[0] == "." then depth else if parts[0] == ".." then depth - 1 else depth + 1;
      var c := Climb(d, parts[1..]);
      if -d > c then -d else c
  }

  lemma {:induction false} WalkInside(folder: seq<string>, inner: seq<string>, parts: seq<string>)
    requires Climb(|inner|, parts) <= 0
    ensures folder <= Walk(folder + inner, parts)
    decreases |parts|
  {
    if parts != [] {
      if parts[0] == "" || parts[0] == "." {
        WalkInside(folder, inner, parts[1..]);
      } else if parts[0] == ".." {
        assert (folder + inner)[..|folder + inner| - 1] == folder + inner[..|inner| - 1];
        WalkInside(folder, inner[..|inner| - 1], parts[1..]);
      } else {
        assert folder + inner + [parts[0]] == folder + (inner + [parts[0]]);
        WalkInside(folder, inner + [parts[0]], parts[1..]);
      }
    }
  }

  /** Any relative name that never climbs above the folder is sealed, whatever else it contains. */
  lemma NotClimbingIsSealed(folder: seq<string>, name: string)
    requires (name == "" || name[0] != '/') && Climb(0, Split(name)) <= 0
    ensures Sealed(folder, name)
  {
    assert folder + [] == folder;
    WalkInside(folder, [], Split(name));
  }

  // ---------- exactly which names are sealed ----------

  /** A name written out: how many folders it first goes up, then the components below. */
  datatype Normal = Normal(ups: nat, names: seq<string>)

  function Normalise(parts: seq<string>): Normal {
    if parts == [] then Normal(0, [])
    else
      var n, last := Normalise(parts[..|parts| - 1]), parts[|parts| - 1];
      if last == "" || last == "." then n
      else if last == ".." then
        if n.names != [] then n.(names := n.names[..|n.names| - 1]) else n.(ups := n.ups + 1)
      else n.(names := n.names + [last])
  }

  /** The folder that many levels up; the root is its own parent. */
  function Up(dir: seq<string>, ups: nat): seq<string> {
    if ups >= |dir| then [] else dir[..|dir| - ups]
  }

  lemma {:induction false} WalkLast(dir: seq<string>, parts: seq<string>, last: string)
    ensures Walk(dir, parts + [last]) == Walk(Walk(dir, parts), [last])
    decreases |parts|
  {
    if parts == [] {
      assert parts + [last] == [last];
    } else {
      assert (parts + [last])[1..] == parts[1..] + [last];
      if parts[0] == "" || parts[0] == "." {
        WalkLast(dir, parts[1..], last);
      } else if parts[0] == ".." {
        WalkLast(if dir == [] then [] else dir[..|dir| - 1], parts[1..], last);
      } else {
        WalkLast(dir + [parts[0]], parts[1..], last);
      }
    }
  }

  lemma {:induction false} WalkIsNormal(dir: seq<string>, parts: seq<string>)
    ensures Walk(dir, parts) == Up(dir, Normalise(parts).ups) + Normalise(parts).names
  {
    if parts != [] {
      var init, last := parts[..|parts| - 1], parts[|parts| - 1];
      assert parts == init + [last];
      WalkIsNormal(dir, init);
      WalkLast(dir, init, last);
      WalkOne(Walk(dir, init), last);
      var n := Normalise(init);
      if last == ".." && n.names != [] {
        assert (Up(dir, n.ups) + n.names)[..|Up(dir, n.ups) + n.names| - 1] == Up(dir, n.ups) + n.names[..|n.names| - 1];
      }
    }
  }

  lemma WalkOne(dir: seq<string>, part: string)
    ensures Walk(dir, [part]) ==
      if part == "" || part == "." then dir
      else if part == ".." then if dir == [] then [] else dir[..|dir| - 1]
      else dir + [part]
  {
    assert [part][1..] == [];
  }

  /**
   A relative name is sealed exactly when it comes back into every folder level it leaves; an absolute one exactly
   when it names the folder's own path first.
   */
  lemma SealedIff(folder: seq<string>, name: string)
    ensures
      var n := Normalise(Split(name));
      Sealed(folder, name) <==>
        if name != "" && name[0] == '/' then folder <= n.names
        else folder[|Up(folder, n.ups)|..] <= n.names
  {
    var n := Normalise(Split(name));
    if name != "" && name[0] == '/' {
      WalkIsNormal([], Split(name));
      assert [] + n.names == n.names;
    } else {
      WalkIsNormal(folder, Split(name));
      var kept := Up(folder, n.ups);
      assert folder == kept + folder[|kept|..];
      if folder <= kept + n.names {
        assert (kept + n.names)[|kept|..] == n.names && folder == (kept + n.names)[..|folder|];
        assert folder[|kept|..] == n.names[..|folder| - |kept|];
      }
      if folder[|kept|..] <= n.names {
        assert (kept + n.names)[..|folder|] == kept + n.names[..|folder| - |kept|];
      }
    }
  }

  // ---------- names written with slashes ----------

  predicate Plain(part: string) {
    part != "" && part != "." && part != ".." && '/' !in part
  }

  lemma {:induction false} SplitFirst(part: string, rest: string)
    requires '/' !in part
    ensures Split(part + "/" + rest) == [part] + Split(rest)
  {
    if part == "" {
      assert part + "/" + rest == "/" + rest && ("/" + rest)[1..] == rest;
    } else {
      assert (part + "/" + rest)[1..] == part[1..] + "/" + rest;
      SplitFirst(part[1..], rest);
      assert part == [part[0]] + part[1..];
    }
  }

  /** "../" so many times, then the rest. */
  function Climbing(ups: nat, rest: string): string {
    if ups == 0 then rest else ".." + "/" + Climbing(ups - 1, rest)
  }

  function Repeat(part: string, n: nat): seq<string> {
    if n == 0 then [] else [part] + Repeat(part, n - 1)
  }

  lemma {:induction false} SplitClimbing(ups: nat, part: string)
    requires Plain(part)
    ensures Split(Climbing(ups, part)) == Repeat("..", ups) + [part]
    ensures Climbing(ups, part) != "" && Climbing(ups, part)[0] != '/'
  {
    if ups == 0 {
      OnePart(part);
    } else {
      SplitClimbing(ups - 1, part);
      SplitFirst("..", Climbing(ups - 1, part));
    }
  }

  lemma {:induction false} UpsOf(ups: nat)
    ensures Normalise(Repeat("..", ups)) == Normal(ups, [])
  {
    if ups > 0 {
      UpsOf(ups - 1);
      RepeatLast(ups - 1);
      assert (Repeat("..", ups - 1) + [".."])[..|Repeat("..", ups - 1)|] == Repeat("..", ups - 1);
    }
  }

  lemma {:induction false} RepeatLast(n: nat)
    ensures Repeat("..", n + 1) == Repeat("..", n) + [".."]
  {
    if n > 0 {
      RepeatLast(n - 1);
    }
  }

  /**
   A name that goes up and then down into one component is refused, unless it goes up to just above the folder and
   names the folder itself.
   */
  lemma ClimbingIsRefused(folder: seq<string>, ups: nat, part: string)
    requires folder != [] && ups > 0 && Plain(part)
    ensures Sealed(folder, Climbing(ups, part)) <==> part == folder[|folder| - 1] && (ups == 1 || |folder| == 1)
  {
    SplitClimbing(ups, part);
    UpsOf(ups);
    var parts := Repeat("..", ups) + [part];
    assert parts[..|parts| - 1] == Repeat("..", ups);
    assert Normalise(parts) == Normal(ups, [part]);
    SealedIff(folder, Climbing(ups, part));
  }

  function Absolute(parts: seq<string>): string {
    if parts == [] then "" else "/" + parts[0] + Absolute(parts[1..])
  }

  lemma {:induction false} SplitAbsolute(first: string, parts: seq<string>)
    requires '/' !in first && forall i :: 0 <= i < |parts| ==> Plain(parts[i])
    ensures Split(first + Absolute(parts)) == [first] + parts
    decreases |parts|
  {
    if parts == [] {
      assert first + Absolute(parts) == first;
      OnePart(first);
    } else {
      assert first + Absolute(parts) == first + "/" + (parts[0] + Absolute(parts[1..]));
      SplitFirst(first, parts[0] + Absolute(parts[1..]));
      SplitAbsolute(parts[0], parts[1..]);
      assert [parts[0]] + parts[1..] == parts;
    }
  }

  lemma {:induction false} PlainIsNormal(parts: seq<string>)
    requires forall i :: 0 <= i < |parts| ==> parts[i] == "" || Plain(parts[i])
    requires forall i :: 0 < i < |parts| ==> Plain(parts[i])
    ensures Normalise(parts) == Normal(0, if parts != [] && parts[0] == "" then parts[1..] else parts)
  {
    if parts != [] {
      var init := parts[..|parts| - 1];
      PlainIsNormal(init);
      assert parts == init + [parts[|parts| - 1]];
    }
  }

  /** An absolute name of plain components is sealed exactly when it is below the folder, or the folder. */
  lemma AbsoluteIff(folder: seq<string>, parts: seq<string>)
    requires parts != [] && forall i :: 0 <= i < |parts| ==> Plain(parts[i])
    ensures Sealed(folder, Absolute(parts)) <==> folder <= parts
  {
    assert "" + Absolute(parts) == Absolute(parts);
    SplitAbsolute("", parts);
    PlainIsNormal([""] + parts);
    assert ([""] + parts)[1..] == parts;
    SealedIff(folder, Absolute(parts));
  }

  lemma AbsoluteOfThree(a: string, b: string, c: string)
    ensures Absolute([a, b, c]) == "/" + a + "/" + b + "/" + c
  {
    assert [a, b, c][1..] == [b, c] && [b, c][1..] == [c] && [c][1..] == [];
    assert Absolute([c]) == "/" + c;
    assert Absolute([b, c]) == "/" + b + ("/" + c);
  }

  /** So the clean-up and a download leave alone what lies beside the upload folder, however it is named. */
  lemma NeighboursAreRefused(above: string, root: string, own: string, part: string)
    requires Plain(above) && Plain(root) && Plain(own) && Plain(part) && part != own
    ensures !Sealed([root, above, own], "../" + part)
    ensures !Sealed([root, above, own], "/" + root + "/" + above + "/" + part)
  {
    hide Sealed;
    var folder := [root, above, own];
    assert Climbing(1, part) == "../" + part by {
      assert Climbing(0, part) == part;
      assert ".." + "/" == "../";
    }
    ClimbingIsRefused(folder, 1, part);
    AbsoluteOfThree(root, above, part);
    AbsoluteIff(folder, [root, above, part]);
    assert folder[2] != [root, above, part][2];
  }
}
