/**
 * The program table of the shader manager as values: the record kept per
 * program, the insertion order of the table's keys, and the memoised
 * location lookups, together with what they guarantee.
 */
module Registry {
  import opened Gl

  /**
   * One entry of the table: the linked program, the attribute and uniform
   * location caches (a key is present once the driver has been asked), and
   * the sources it was built from.
   */
  datatype ProgramInfo = ProgramInfo(program: Handle, attributes: map<string, AttribIndex>,
                                     uniforms: map<string, Option<Location>>,
                                     vertexSource: string, fragmentSource: string)

  type Programs = map<string, ProgramInfo>

  predicate Distinct(names: seq<string>) {
    forall i, j :: 0 <= i < j < |names| ==> names[i] != names[j]
  }

  /** `names` lists every key of `programs` exactly once, in the Map's insertion order. */
  ghost predicate Ordered(programs: Programs, names: seq<string>) {
    Distinct(names) && forall n :: n in programs <==> n in names
  }

  /** The manager's invariant: the current program is null or a registered name. */
  predicate CurrentRegistered(programs: Programs, current: Option<string>) {
    current.None? || current.value in programs
  }

  /**
   * The key order after `programs.set(name, ...)`: a new key goes last, an
   * existing key keeps its place.
   */
  function Enrolled(names: seq<string>, name: string): (r: seq<string>)
    ensures forall n :: n in r <==> n in names || n == name
    ensures Distinct(names) ==> Distinct(r)
    ensures |names| <= |r| && r[..|names|] == names
    ensures name in names ==> r == names
  {
    if name in names then names else names + [name]
  }

  /** The key order after `programs.delete(name)`: every other key, in the same order. */
  function Without(names: seq<string>, name: string): (r: seq<string>)
    ensures forall n :: n in r <==> n in names && n != name
    ensures Distinct(names) ==> Distinct(r)
    ensures name !in names ==> r == names
    ensures |r| <= |names|
  {
    if names == [] then []
    else if names[0] == name then Without(names[1..], name)
    else
      var rest := Without(names[1..], name);
      assert Distinct(names) ==> names[0] !in names[1..] && names[0] !in rest;
      [names[0]] + rest
  }

  /** Removing the first key of a duplicate-free order leaves the rest of it. */
  lemma WithoutFirst(names: seq<string>)
    requires Distinct(names) && names != []
    ensures Without(names, names[0]) == names[1..]
  {
  }

  /** `programs.delete` keeps every other key in its place: removing the i-th key closes the gap. */
  lemma WithoutAt(names: seq<string>, i: nat)
    requires Distinct(names) && i < |names|
    ensures Without(names, names[i]) == names[..i] + names[i + 1..]
  {
    var key, before, after := names[i], names[..i], names[i + 1..];
    SplitAt(names, i);
    WithoutAppend(before, [key] + after, key);
    WithoutAppend([key], after, key);
    KeyOnlyAt(names, i);
    assert Without([key], key) == [];
  }

  /** In a duplicate-free order, the key at position i occurs neither before nor after it. */
  lemma KeyOnlyAt(names: seq<string>, i: nat)
    requires Distinct(names) && i < |names|
    ensures names[i] !in names[..i] && names[i] !in names[i + 1..]
  {
    forall k | 0 <= k < i ensures names[..i][k] != names[i] { assert names[..i][k] == names[k]; }
    var after := names[i + 1..];
    forall k | 0 <= k < |after| ensures after[k] != names[i] { assert after[k] == names[i + 1 + k]; }
  }

  /** A sequence is the part before position i, the element at i and the part after it. */
  lemma SplitAt(s: seq<string>, i: nat)
    requires i < |s|
    ensures s == s[..i] + ([s[i]] + s[i + 1..])
  {
    assert s[i..] == [s[i]] + s[i + 1..];
    assert s == s[..i] + s[i..];
  }

  /** Removing a key from a concatenation removes it from each part. */
  lemma {:induction false} WithoutAppend(a: seq<string>, b: seq<string>, name: string)
    ensures Without(a + b, name) == Without(a, name) + Without(b, name)
  {
    if a == [] {
      assert a + b == b;
    } else {
      assert (a + b)[1..] == a[1..] + b;
      WithoutAppend(a[1..], b, name);
    }
  }

  /**
   * Registering a name and then deleting it leaves the other keys in the
   * order they had before the registration.
   */
  lemma WithoutEnrolled(names: seq<string>, name: string)
    ensures Without(Enrolled(names, name), name) == Without(names, name)
  {
    if name !in names {
      WithoutAppend(names, [name], name);
      assert Without([name], name) == Without([], name);
    }
  }

  /** The answer of one lookup, the table after it, and the driver queries it made. */
  datatype Cached<L> = Cached(location: L, programs: Programs, queries: seq<Event>)

  /**
   * `getAttribLocation(programName, attributeName)`: -1 and no effect for an
   * unknown program; otherwise the cached answer if there is one, else the
   * driver is asked once and its answer, -1 included, is cached. No other
   * entry, and nothing else in this entry, changes.
   */
  function AttribLookup(programs: Programs, programName: string, attributeName: string,
                        attribLocation: (Handle, string) -> AttribIndex): (c: Cached<AttribIndex>)
    ensures c.programs.Keys == programs.Keys
    ensures forall n :: n in programs && n != programName ==> c.programs[n] == programs[n]
    ensures |c.queries| <= 1
    ensures programName !in programs ==> c == Cached(-1, programs, [])
    ensures programName in programs ==>
              var info := programs[programName];
              && c.programs[programName] == info.(attributes := info.attributes[attributeName := c.location])
              && (c.queries == [] <==> attributeName in info.attributes)
              && (attributeName in info.attributes ==> c.location == info.attributes[attributeName])
              && (c.queries != [] ==> c.location == attribLocation(info.program, attributeName) &&
                                      c.queries == [AttribLocationQueried(info.program, attributeName)])
  {
    if programName !in programs then Cached(-1, programs, [])
    else
      var info := programs[programName];
      if attributeName in info.attributes then
        assert info.attributes[attributeName := info.attributes[attributeName]] == info.attributes;
        Cached(info.attributes[attributeName], programs, [])
      else
        var location := attribLocation(info.program, attributeName);
        Cached(location, programs[programName := info.(attributes := info.attributes[attributeName := location])],
               [AttribLocationQueried(info.program, attributeName)])
  }

  /**
   * `getUniformLocation(programName, uniformName)`: null (`None`) and no
   * effect for an unknown program; otherwise the cached answer if there is
   * one, else the driver is asked once and its answer, null included, is
   * cached. No other entry, and nothing else in this entry, changes.
   */
  function UniformLookup(programs: Programs, programName: string, uniformName: string,
                         uniformLocation: (Handle, string) -> Option<Location>): (c: Cached<Option<Location>>)
    ensures c.programs.Keys == programs.Keys
    ensures forall n :: n in programs && n != programName ==> c.programs[n] == programs[n]
    ensures |c.queries| <= 1
    ensures programName !in programs ==> c == Cached(None, programs, [])
    ensures programName in programs ==>
              var info := programs[programName];
              && c.programs[programName] == info.(uniforms := info.uniforms[uniformName := c.location])
              && (c.queries == [] <==> uniformName in info.uniforms)
              && (uniformName in info.uniforms ==> c.location == info.uniforms[uniformName])
              && (c.queries != [] ==> c.location == uniformLocation(info.program, uniformName) &&
                                      c.queries == [UniformLocationQueried(info.program, uniformName)])
  {
    if programName !in programs then Cached(None, programs, [])
    else
      var info := programs[programName];
      if uniformName in info.uniforms then
        assert info.uniforms[uniformName := info.uniforms[uniformName]] == info.uniforms;
        Cached(info.uniforms[uniformName], programs, [])
      else
        var location := uniformLocation(info.program, uniformName);
        Cached(location, programs[programName := info.(uniforms := info.uniforms[uniformName := location])],
               [UniformLocationQueried(info.program, uniformName)])
  }

  /**
   * `k` successive attribute lookups of the same (program, attribute): the
   * answers in order, the table after the last one, and all driver queries.
   */
  function AttribLookups(programs: Programs, programName: string, attributeName: string,
                         attribLocation: (Handle, string) -> AttribIndex, k: nat)
    : (seq<AttribIndex>, Programs, seq<Event>)
  {
    if k == 0 then ([], programs, [])
    else
      var c := AttribLookup(programs, programName, attributeName, attribLocation);
      var rest := AttribLookups(c.programs, programName, attributeName, attribLocation, k - 1);
      ([c.location] + rest.0, rest.1, c.queries + rest.2)
  }

  /** Once an attribute location is cached, further lookups answer it and change nothing. */
  lemma {:induction false} CachedAttribLookups(programs: Programs, programName: string, attributeName: string,
                                               attribLocation: (Handle, string) -> AttribIndex, k: nat)
    requires programName in programs && attributeName in programs[programName].attributes
    ensures var r := AttribLookups(programs, programName, attributeName, attribLocation, k);
            && |r.0| == k && r.1 == programs && r.2 == []
            && forall i :: 0 <= i < k ==> r.0[i] == programs[programName].attributes[attributeName]
  {
    if k > 0 {
      CachedAttribLookups(programs, programName, attributeName, attribLocation, k - 1);
    }
  }

  /**
   * However often a program's attribute location is looked up, the driver is
   * asked at most once and every lookup gives the same answer.
   */
  lemma {:induction false} AttribQueriedAtMostOnce(programs: Programs, programName: string, attributeName: string,
                                                   attribLocation: (Handle, string) -> AttribIndex, k: nat)
    requires k > 0
    ensures var r := AttribLookups(programs, programName, attributeName, attribLocation, k);
            var first := AttribLookup(programs, programName, attributeName, attribLocation);
            && |r.2| <= 1 && r.1 == first.programs
            && |r.0| == k && forall i :: 0 <= i < k ==> r.0[i] == first.location
  {
    var first := AttribLookup(programs, programName, attributeName, attribLocation);
    if programName in programs {
      CachedAttribLookups(first.programs, programName, attributeName, attribLocation, k - 1);
    } else {
      UnknownProgramAttribLookups(programs, programName, attributeName, attribLocation, k - 1);
    }
  }

  /** Lookups against an unknown program answer -1 and change nothing. */
  lemma {:induction false} UnknownProgramAttribLookups(programs: Programs, programName: string, attributeName: string,
                                                       attribLocation: (Handle, string) -> AttribIndex, k: nat)
    requires programName !in programs
    ensures var r := AttribLookups(programs, programName, attributeName, attribLocation, k);
            && |r.0| == k && r.1 == programs && r.2 == []
            && forall i :: 0 <= i < k ==> r.0[i] == -1
  {
    if k > 0 {
      UnknownProgramAttribLookups(programs, programName, attributeName, attribLocation, k - 1);
    }
  }

  /**
   * `k` successive uniform lookups of the same (program, uniform): the
   * answers in order, the table after the last one, and all driver queries.
   */
  function UniformLookups(programs: Programs, programName: string, uniformName: string,
                          uniformLocation: (Handle, string) -> Option<Location>, k: nat)
    : (seq<Option<Location>>, Programs, seq<Event>)
  {
    if k == 0 then ([], programs, [])
    else
      var c := UniformLookup(programs, programName, uniformName, uniformLocation);
      var rest := UniformLookups(c.programs, programName, uniformName, uniformLocation, k - 1);
      ([c.location] + rest.0, rest.1, c.queries + rest.2)
  }

  /** Once a uniform location is cached (null included), further lookups answer it and change nothing. */
  lemma {:induction false} CachedUniformLookups(programs: Programs, programName: string, uniformName: string,
                                                uniformLocation: (Handle, string) -> Option<Location>, k: nat)
    requires programName in programs && uniformName in programs[programName].uniforms
    ensures var r := UniformLookups(programs, programName, uniformName, uniformLocation, k);
            && |r.0| == k && r.1 == programs && r.2 == []
            && forall i :: 0 <= i < k ==> r.0[i] == programs[programName].uniforms[uniformName]
  {
    if k > 0 {
      CachedUniformLookups(programs, programName, uniformName, uniformLocation, k - 1);
    }
  }

  /** Lookups against an unknown program answer null and change nothing. */
  lemma {:induction false} UnknownProgramUniformLookups(programs: Programs, programName: string, uniformName: string,
                                                        uniformLocation: (Handle, string) -> Option<Location>, k: nat)
    requires programName !in programs
    ensures var r := UniformLookups(programs, programName, uniformName, uniformLocation, k);
            && |r.0| == k && r.1 == programs && r.2 == []
            && forall i :: 0 <= i < k ==> r.0[i] == None
  {
    if k > 0 {
      UnknownProgramUniformLookups(programs, programName, uniformName, uniformLocation, k - 1);
    }
  }

  /**
   * However often a program's uniform location is looked up, the driver is
   * asked at most once and every lookup gives the same answer.
   */
  lemma {:induction false} UniformQueriedAtMostOnce(programs: Programs, programName: string, uniformName: string,
                                                    uniformLocation: (Handle, string) -> Option<Location>, k: nat)
    requires k > 0
    ensures var r := UniformLookups(programs, programName, uniformName, uniformLocation, k);
            var first := UniformLookup(programs, programName, uniformName, uniformLocation);
            && |r.2| <= 1 && r.1 == first.programs
            && |r.0| == k && forall i :: 0 <= i < k ==> r.0[i] == first.location
  {
    var first := UniformLookup(programs, programName, uniformName, uniformLocation);
    if programName in programs {
      CachedUniformLookups(first.programs, programName, uniformName, uniformLocation, k - 1);
    } else {
      UnknownProgramUniformLookups(programs, programName, uniformName, uniformLocation, k - 1);
    }
  }

  /**
   * Lookups under one program never touch another program's caches: looking
   * up in `a` and then in `b` leaves `b`'s answer what it would have been.
   */
  lemma UniformCachesIndependent(programs: Programs, a: string, b: string, x: string, y: string,
                                 uniformLocation: (Handle, string) -> Option<Location>)
    requires a != b
    ensures var afterA := UniformLookup(programs, a, x, uniformLocation).programs;
            UniformLookup(afterA, b, y, uniformLocation).location == UniformLookup(programs, b, y, uniformLocation).location
  {
  }

  /** The program handles the table refers to. */
  function Handles(programs: Programs): set<Handle> {
    set n | n in programs :: programs[n].program
  }

  /** The handles of a table are those of the table without one entry, plus that entry's handle. */
  lemma HandlesWithout(programs: Programs, name: string)
    requires name in programs
    ensures Handles(programs) == Handles(programs - {name}) + {programs[name].program}
  {
    var rest := programs - {name};
    forall h | h in Handles(programs)
      ensures h in Handles(rest) + {programs[name].program}
    {
      var n :| n in programs && programs[n].program == h;
      if n != name {
        assert n in rest && rest[n].program == h;
      }
    }
    forall h | h in Handles(rest)
      ensures h in Handles(programs)
    {
      var n :| n in rest && rest[n].program == h;
      assert n in programs && programs[n].program == h;
    }
  }

  /** The `deleteProgram` calls `deleteAllPrograms` issues, one per key, in key order. */
  function DeletionCalls(programs: Programs, names: seq<string>): (calls: seq<Event>)
    requires forall n :: n in names ==> n in programs
    ensures |calls| == |names|
    ensures forall i :: 0 <= i < |names| ==> calls[i] == ProgramDeleted(programs[names[i]].program)
  {
    if names == [] then []
    else DeletionCalls(programs, names[..|names| - 1]) + [ProgramDeleted(programs[names[|names| - 1]].program)]
  }

  /** Removing the oldest key keeps the order of the others. */
  lemma OrderedWithoutFirst(programs: Programs, names: seq<string>)
    requires Ordered(programs, names) && names != []
    ensures Ordered(programs - {names[0]}, names[1..])
  {
  }

  /** Deleting the oldest key issues its call first; the rest follow from the table without it. */
  lemma DeletionCallsFirst(programs: Programs, names: seq<string>)
    requires Ordered(programs, names) && names != []
    ensures Ordered(programs - {names[0]}, names[1..])
    ensures DeletionCalls(programs, names) ==
            [ProgramDeleted(programs[names[0]].program)] + DeletionCalls(programs - {names[0]}, names[1..])
  {
    OrderedWithoutFirst(programs, names);
    DeletionCallsShift(programs, programs - {names[0]}, names);
  }

  /**
   * The calls for a non-empty order are the first key's call followed by the
   * calls for the other keys, looked up in any table that holds the same
   * programs for them.
   */
  lemma DeletionCallsShift(programs: Programs, rest: Programs, names: seq<string>)
    requires names != [] && forall n :: n in names ==> n in programs
    requires forall n :: n in names[1..] ==> n in rest && rest[n].program == programs[n].program
    ensures DeletionCalls(programs, names) ==
            [ProgramDeleted(programs[names[0]].program)] + DeletionCalls(rest, names[1..])
  {
    var lhs := DeletionCalls(programs, names);
    var tail := DeletionCalls(rest, names[1..]);
    var rhs := [ProgramDeleted(programs[names[0]].program)] + tail;
    forall i | 0 <= i < |lhs|
      ensures lhs[i] == rhs[i]
    {
      if i > 0 {
        var n := names[1..][i - 1];
        assert n == names[i] && n in names[1..];
        assert rhs[i] == tail[i - 1] == ProgramDeleted(rest[n].program);
      }
    }
  }

  /** The same step seen from a trace that already holds the calls issued so far. */
  lemma DeletionCallsAfter(programs: Programs, names: seq<string>, done: seq<Event>)
    requires Ordered(programs, names) && names != []
    ensures Ordered(programs - {names[0]}, names[1..])
    ensures done + [ProgramDeleted(programs[names[0]].program)] + DeletionCalls(programs - {names[0]}, names[1..]) ==
            done + DeletionCalls(programs, names)
  {
    DeletionCallsFirst(programs, names);
  }
}
