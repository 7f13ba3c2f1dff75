/**
 * The bookkeeping of `SSHManager`, the suitcase-style file manager that hands
 * out buffers piping to `ssh <host> 'cat <path>'`. The pipes themselves are
 * opaque tokens; what is modelled is which postfixes have been used, which
 * buffers each tag has collected, and which buffer each postfix got.
 */
module SshManager {
  import opened Wrappers
  import opened Paths

  /** A pipe to `cat` on the remote host: text (`PipeStringToCat`) or bytes (`PipeBytesToCat`). */
  datatype Buffer = Buffer(binary: bool, host: string, path: string)

  datatype ManagerError =
    | AbsolutePostfix(postfix: string)   // SuitcaseUtilsValueError: must look like a relative path
    | NoHomeDirectory(postfix: string)   // `expanduser` cannot resolve a leading `~user`
    | PostfixUsed(postfix: string)       // SuitcaseUtilsValueError: already used
    | BadMode(mode: string)              // ModeError
    | ExplicitNamesUnsupported           // SuitcaseUtilsTypeError from `reserve_name`

  /** The three fields `open` updates. */
  datatype State = State(
    reservedNames: set<PurePath>,
    artifacts: map<string, seq<Buffer>>,
    buffers: map<string, Buffer>)

  /** The fixed part of a manager: host, directory, and how `~user` expands. */
  datatype Config = Config(host: string, directory: PurePath, homeOf: string -> Option<PurePath>)

  /** `Path(postfix).expanduser()`; `None` where that raises. */
  function NameOf(c: Config, postfix: string): Option<PurePath> {
    ExpandUser(Parse(postfix), c.homeOf)
  }

  function Empty(): (s: State)
    ensures s.reservedNames == {} && s.artifacts == map[] && s.buffers == map[]
  {
    State({}, map[], map[])
  }

  /**
   * What one `open(tag, postfix, mode)` does to the state, and what it
   * returns or raises.
   */
  function Opened(c: Config, s: State, tag: string, postfix: string, mode: string): (State, Result<Buffer, ManagerError>) {
    if Parse(postfix).absolute then (s, Failure(AbsolutePostfix(postfix)))
    else match NameOf(c, postfix)
      case None => (s, Failure(NoHomeDirectory(postfix)))
      case Some(name) =>
        if name in s.reservedNames then (s, Failure(PostfixUsed(postfix)))
        else
          var reserved := s.(reservedNames := s.reservedNames + {name});
          if mode == "x" || mode == "xt" || mode == "xb" then
            var buffer := Buffer(mode == "xb", c.host, ToStr(Join(c.directory, name)));
            var list := GetOr(s.artifacts, tag, []);
            (reserved.(artifacts := s.artifacts[tag := list + [buffer]],
                       buffers := s.buffers[postfix := buffer]),
             Success(buffer))
          else (reserved, Failure(BadMode(mode)))
  }

  /**
   * What holds of every state `open` can reach: each recorded postfix has
   * its name reserved, and each tag's list is non-empty and holds only
   * buffers recorded under some postfix.
   */
  ghost predicate ValidState(c: Config, s: State) {
    (forall p :: p in s.buffers ==> NameOf(c, p).Some? && NameOf(c, p).value in s.reservedNames) &&
    (forall l :: l in s.artifacts ==> s.artifacts[l] != []) &&
    (forall l, b :: l in s.artifacts && b in s.artifacts[l] ==> b in s.buffers.Values)
  }

  lemma EmptyValid(c: Config)
    ensures ValidState(c, Empty())
  {
  }

  /** An absolute postfix is refused before anything is reserved. */
  lemma OpenRejectsAbsolute(c: Config, s: State, tag: string, postfix: string, mode: string)
    requires IsAbsolute(postfix)
    ensures Opened(c, s, tag, postfix, mode) == (s, Failure(AbsolutePostfix(postfix)))
  {
  }

  /** A postfix whose name is already reserved is refused, and nothing changes. */
  lemma OpenRejectsReused(c: Config, s: State, tag: string, postfix: string, mode: string)
    requires !IsAbsolute(postfix) && NameOf(c, postfix).Some?
    requires NameOf(c, postfix).value in s.reservedNames
    ensures Opened(c, s, tag, postfix, mode) == (s, Failure(PostfixUsed(postfix)))
  {
  }

  /**
   * A mode other than `x`, `xt` and `xb` raises `ModeError`, but only after
   * the name was reserved: the refused call still uses the postfix up.
   */
  lemma BadModeConsumesName(c: Config, s: State, tag: string, postfix: string, mode: string)
    requires !IsAbsolute(postfix) && NameOf(c, postfix).Some?
    requires NameOf(c, postfix).value !in s.reservedNames
    requires mode != "x" && mode != "xt" && mode != "xb"
    ensures var (t, r) := Opened(c, s, tag, postfix, mode);
      r == Failure(BadMode(mode)) &&
      t == s.(reservedNames := s.reservedNames + {NameOf(c, postfix).value})
  {
  }

  /**
   * Any call that gets past the first two checks reserves the name, so a
   * second `open` of the same postfix is refused whatever the first call's
   * mode was and whatever the second one's is.
   */
  lemma {:induction false} SecondOpenRejected(c: Config, s: State, tag: string, postfix: string, mode: string,
                                              tag2: string, mode2: string)
    requires !IsAbsolute(postfix) && NameOf(c, postfix).Some?
    ensures var (t, _) := Opened(c, s, tag, postfix, mode);
      Opened(c, t, tag2, postfix, mode2) == (t, Failure(PostfixUsed(postfix)))
  {
    var t := Opened(c, s, tag, postfix, mode).0;
    assert NameOf(c, postfix).value in t.reservedNames;
  }

  /**
   * A successful `open` reserves the name, appends exactly one buffer, of
   * the kind the mode asks for and writing to `directory / name`, to the
   * tag's list, records it under the postfix, and changes nothing else.
   */
  lemma SuccessfulOpen(c: Config, s: State, tag: string, postfix: string, mode: string)
    requires Opened(c, s, tag, postfix, mode).1.Success?
    ensures NameOf(c, postfix).Some? && !IsAbsolute(postfix)
    ensures var (t, r) := Opened(c, s, tag, postfix, mode);
      var name := NameOf(c, postfix).value;
      var b := r.value;
      name !in s.reservedNames &&
      (mode == "x" || mode == "xt" || mode == "xb") &&
      b == Buffer(mode == "xb", c.host, ToStr(Join(c.directory, name))) &&
      t.reservedNames == s.reservedNames + {name} &&
      tag in t.artifacts && t.artifacts[tag] == GetOr(s.artifacts, tag, []) + [b] &&
      (forall l :: l != tag ==> (l in t.artifacts <==> l in s.artifacts)) &&
      (forall l :: l in s.artifacts && l != tag ==> t.artifacts[l] == s.artifacts[l]) &&
      t.buffers.Keys == s.buffers.Keys + {postfix} && t.buffers[postfix] == b &&
      (forall p :: p in s.buffers && p != postfix ==> t.buffers[p] == s.buffers[p])
  {
  }

  /** Every call to `open`, successful or not, keeps the state valid; a valid state never has two buffers on one postfix. */
  lemma {:induction false} OpenPreservesValid(c: Config, s: State, tag: string, postfix: string, mode: string)
    requires ValidState(c, s)
    ensures ValidState(c, Opened(c, s, tag, postfix, mode).0)
    ensures Opened(c, s, tag, postfix, mode).1.Success? ==> postfix !in s.buffers
  {
    if !Parse(postfix).absolute && NameOf(c, postfix).Some? && NameOf(c, postfix).value !in s.reservedNames {
      var name := NameOf(c, postfix).value;
      if mode == "x" || mode == "xt" || mode == "xb" {
        var b := Buffer(mode == "xb", c.host, ToStr(Join(c.directory, name)));
        SuccessKeepsValid(c, s, tag, postfix, name, b);
      }
    }
  }

  lemma SuccessKeepsValid(c: Config, s: State, tag: string, postfix: string, name: PurePath, b: Buffer)
    requires ValidState(c, s)
    requires NameOf(c, postfix) == Some(name) && name !in s.reservedNames
    ensures postfix !in s.buffers
    ensures ValidState(c, State(s.reservedNames + {name},
                                s.artifacts[tag := GetOr(s.artifacts, tag, []) + [b]],
                                s.buffers[postfix := b]))
  {
    assert postfix !in s.buffers;
    ListedStillRecorded(s, tag, postfix, b);
  }

  /** After the new buffer is listed and recorded, every listed buffer is still recorded. */
  lemma ListedStillRecorded(s: State, tag: string, postfix: string, b: Buffer)
    requires forall l, x :: l in s.artifacts && x in s.artifacts[l] ==> x in s.buffers.Values
    requires postfix !in s.buffers
    ensures var artifacts := s.artifacts[tag := GetOr(s.artifacts, tag, []) + [b]];
      forall l, x :: l in artifacts && x in artifacts[l] ==> x in s.buffers[postfix := b].Values
  {
    var artifacts := s.artifacts[tag := GetOr(s.artifacts, tag, []) + [b]];
    var buffers := s.buffers[postfix := b];
    forall l, x | l in artifacts && x in artifacts[l]
      ensures x in buffers.Values
    {
      assert buffers[postfix] == b;
      if x != b {
        if l == tag {
          assert x in GetOr(s.artifacts, tag, []);
        }
        assert l in s.artifacts && x in s.artifacts[l];
        assert x in s.buffers.Values;
        var p :| p in s.buffers && s.buffers[p] == x;
        assert buffers[p] == x;
      }
    }
  }

  /** `reserve_name` never succeeds on this manager. */
  function ReserveName(tag: string, postfix: string): (r: Result<(), ManagerError>)
    ensures r.Failure? && r.error == ExplicitNamesUnsupported
  {
    Failure(ExplicitNamesUnsupported)
  }

  class SSHManager {
    const config: Config
    var reservedNames: set<PurePath>
    var artifactLists: map<string, seq<Buffer>>
    var buffers: map<string, Buffer>

    function Current(): State
      reads this
    {
      State(reservedNames, artifactLists, buffers)
    }

    ghost predicate Valid()
      reads this
    {
      ValidState(config, Current())
    }

    constructor (host: string, directory: string, homeOf: string -> Option<PurePath>)
      ensures config == Config(host, Parse(directory), homeOf)
      ensures Current() == Empty() && Valid()
    {
      config := Config(host, Parse(directory), homeOf);
      reservedNames := {};
      artifactLists := map[];
      buffers := map[];
    }

    /** The `artifacts` property: a snapshot of each tag's buffers, never empty lists. */
    function Artifacts(): (r: map<string, seq<Buffer>>)
      requires Valid()
      reads this
      ensures forall l :: l in r ==> r[l] != [] && forall b :: b in r[l] ==> b in buffers.Values
    {
      artifactLists
    }

    /** `open(tag, postfix, mode)`: checks in the order the manager makes them, then records the buffer. */
    method Open(tag: string, postfix: string, mode: string) returns (r: Result<Buffer, ManagerError>)
      requires Valid()
      modifies this
      ensures (Current(), r) == Opened(config, old(Current()), tag, postfix, mode)
      ensures Valid()
    {
      OpenPreservesValid(config, Current(), tag, postfix, mode);
      if Parse(postfix).absolute {
        return Failure(AbsolutePostfix(postfix));
      }
      var named := ExpandUser(Parse(postfix), config.homeOf);
      if named.None? {
        return Failure(NoHomeDirectory(postfix));
      }
      var name := named.value;
      if name in reservedNames {
        return Failure(PostfixUsed(postfix));
      }
      reservedNames := reservedNames + {name};
      var binary: bool;
      if mode == "x" || mode == "xt" {
        binary := false;
      } else if mode == "xb" {
        binary := true;
      } else {
        return Failure(BadMode(mode));
      }
      var buffer := Buffer(binary, config.host, ToStr(Join(config.directory, name)));
      var list := if tag in artifactLists then artifactLists[tag] else [];
      artifactLists := artifactLists[tag := list + [buffer]];
      buffers := buffers[postfix := buffer];
      return Success(buffer);
    }
  }
}
