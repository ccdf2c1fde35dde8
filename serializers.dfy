/**
 * The field projection of `DynamicModelSerializer` in app/core/serializers.py.
 * A serializer's `fields` is an ordered dictionary; only its keys matter
 * here, so it is a sequence of field names, and `pop(name)` removes the key.
 * `fields` and `exclude` are the optional keyword arguments (lists of names).
 */
module Serializers {
  import opened Wrappers

  /** The `KeyError` that `pop` raises for a name that is not a field. */
  datatype FieldError = KeyError(name: string)

  /** Python's truth value of an optional list: present and non-empty. */
  predicate Truthy(names: Option<seq<string>>)
  {
    names.Some? && |names.value| > 0
  }

  /** The set of names in a list (`set(fields)`). */
  function Elems(s: seq<string>): set<string>
  {
    set x | x in s
  }

  /** No name occurs twice. */
  predicate Distinct(s: seq<string>)
  {
    forall i, j :: 0 <= i < j < |s| ==> s[i] != s[j]
  }

  /** `s` without the names in `d`; the others keep their order. */
  function Drop(s: seq<string>, d: set<string>): (r: seq<string>)
    ensures forall x :: x in r <==> x in s && x !in d
    ensures |r| <= |s|
  {
    if s == [] then []
    else if s[0] in d then Drop(s[1..], d)
    else [s[0]] + Drop(s[1..], d)
  }

  /** `r` is `s` with some entries left out, the rest in their original order. */
  ghost predicate SubsequenceOf(r: seq<string>, s: seq<string>)
    decreases |s|
  {
    r == [] ||
    (s != [] && (SubsequenceOf(r, s[1..]) || (r[0] == s[0] && SubsequenceOf(r[1..], s[1..]))))
  }

  /** The exclude loop: pop each name in turn; a name no longer present raises. */
  function ExcludeAll(s: seq<string>, exclude: seq<string>): Result<seq<string>, FieldError>
    decreases |exclude|
  {
    if exclude == [] then Ok(s)
    else if exclude[0] !in s then Err(KeyError(exclude[0]))
    else ExcludeAll(Drop(s, {exclude[0]}), exclude[1..])
  }

  /** The field names the serializer is left with, or the error `__init__` raises. */
  function Project(declared: seq<string>, fields: Option<seq<string>>, exclude: Option<seq<string>>): Result<seq<string>, FieldError>
  {
    if Truthy(fields) != Truthy(exclude) then
      if fields.Some? then Ok(Drop(declared, Elems(declared) - Elems(fields.value)))
      else if exclude.Some? then ExcludeAll(declared, exclude.value)
      else Ok(declared)
    else Ok(declared)
  }

  lemma {:induction false} DropNothing(s: seq<string>)
    ensures Drop(s, {}) == s
  {
    if s != [] {
      DropNothing(s[1..]);
    }
  }

  lemma {:induction false} DropTwice(s: seq<string>, a: set<string>, b: set<string>)
    ensures Drop(Drop(s, a), b) == Drop(s, a + b)
  {
    if s != [] {
      DropTwice(s[1..], a, b);
      if s[0] !in a {
        assert Drop(s, a) == [s[0]] + Drop(s[1..], a);
        assert Drop(s, a)[1..] == Drop(s[1..], a);
      }
    }
  }

  lemma {:induction false} DropEverything(s: seq<string>, d: set<string>)
    requires Elems(s) <= d
    ensures Drop(s, d) == []
  {
    if s != [] {
      assert s[0] in Elems(s);
      DropEverything(s[1..], d);
    }
  }

  /** Dropping keeps the surviving names in their original order. */
  lemma {:induction false} DropKeepsOrder(s: seq<string>, d: set<string>)
    ensures SubsequenceOf(Drop(s, d), s)
    decreases |s|
  {
    if s != [] {
      DropKeepsOrder(s[1..], d);
      if s[0] !in d {
        var r := Drop(s, d);
        assert r[0] == s[0] && r[1..] == Drop(s[1..], d);
      }
    }
  }

  /**
   * The exclude loop succeeds exactly when the excluded names are distinct
   * fields, and then removes exactly those names.
   */
  lemma {:induction false} ExcludeAllSpec(s: seq<string>, exclude: seq<string>)
    ensures ExcludeAll(s, exclude).Ok? <==> Distinct(exclude) && Elems(exclude) <= Elems(s)
    ensures ExcludeAll(s, exclude).Ok? ==> ExcludeAll(s, exclude).value == Drop(s, Elems(exclude))
    decreases |exclude|
  {
    if exclude == [] {
      DropNothing(s);
      assert Elems(exclude) == {};
    } else {
      var x, rest := exclude[0], exclude[1..];
      assert exclude == [x] + rest;
      assert Elems(exclude) == {x} + Elems(rest);
      assert Distinct(exclude) <==> Distinct(rest) && x !in rest by {
        if Distinct(rest) && x !in rest {
          forall i, j | 0 <= i < j < |exclude| ensures exclude[i] != exclude[j] {
            if i > 0 {
              assert exclude[i] == rest[i - 1] && exclude[j] == rest[j - 1];
            } else {
              assert exclude[j] == rest[j - 1] && rest[j - 1] in rest;
            }
          }
        }
        if Distinct(exclude) {
          forall i, j | 0 <= i < j < |rest| ensures rest[i] != rest[j] {
            assert rest[i] == exclude[i + 1] && rest[j] == exclude[j + 1];
          }
          forall k | 0 <= k < |rest| ensures rest[k] != x {
            assert rest[k] == exclude[k + 1];
          }
        }
      }
      if x in s {
        ExcludeAllSpec(Drop(s, {x}), rest);
        assert Elems(Drop(s, {x})) == Elems(s) - {x};
        DropTwice(s, {x}, Elems(rest));
      }
    }
  }

  /**
   * A non-empty `fields` with a falsy `exclude` (or `fields=[]` with a
   * non-empty `exclude`) keeps exactly the declared fields named in `fields`;
   * names that are not fields are ignored rather than raising.
   */
  lemma FieldsBranch(declared: seq<string>, fields: seq<string>, exclude: Option<seq<string>>)
    requires Truthy(Some(fields)) != Truthy(exclude)
    ensures Project(declared, Some(fields), exclude).Ok?
    ensures Elems(Project(declared, Some(fields), exclude).value) == Elems(declared) * Elems(fields)
  {
  }

  /** `fields=[]` with a non-empty `exclude` takes the `fields` branch and removes every field. */
  lemma {:induction false} EmptyFieldsRemovesAll(declared: seq<string>, exclude: seq<string>)
    requires |exclude| > 0
    ensures Project(declared, Some([]), Some(exclude)) == Ok([])
  {
    DropEverything(declared, Elems(declared) - Elems([]));
  }

  /**
   * With no `fields` and a non-empty `exclude`, projection succeeds exactly
   * when the excluded names are distinct existing fields, and then removes
   * exactly them; any other name raises `KeyError`.
   */
  lemma ExcludeBranch(declared: seq<string>, exclude: seq<string>)
    requires |exclude| > 0
    ensures Project(declared, None, Some(exclude)).Ok? <==> Distinct(exclude) && Elems(exclude) <= Elems(declared)
    ensures Project(declared, None, Some(exclude)).Ok? ==>
      Project(declared, None, Some(exclude)).value == Drop(declared, Elems(exclude))
  {
    ExcludeAllSpec(declared, exclude);
  }

  /** Excluding a name that is not a field raises `KeyError`. */
  lemma ExcludeUnknownFails(declared: seq<string>, exclude: seq<string>, name: string)
    requires name in exclude && name !in declared
    ensures Project(declared, None, Some(exclude)).Err?
  {
    ExcludeAllSpec(declared, exclude);
    assert name in Elems(exclude);
  }

  /** When both or neither option is truthy, the fields are left as declared. */
  lemma BothOrNeitherUnchanged(declared: seq<string>, fields: Option<seq<string>>, exclude: Option<seq<string>>)
    requires Truthy(fields) == Truthy(exclude)
    ensures Project(declared, fields, exclude) == Ok(declared)
  {
  }

  /** Whatever the options, the result is the declared fields with some left out, in their order. */
  lemma ProjectKeepsOrder(declared: seq<string>, fields: Option<seq<string>>, exclude: Option<seq<string>>)
    requires Project(declared, fields, exclude).Ok?
    ensures SubsequenceOf(Project(declared, fields, exclude).value, declared)
    ensures Elems(Project(declared, fields, exclude).value) <= Elems(declared)
  {
    var r := Project(declared, fields, exclude).value;
    if Truthy(fields) != Truthy(exclude) {
      if fields.Some? {
        DropKeepsOrder(declared, Elems(declared) - Elems(fields.value));
      } else if exclude.Some? {
        ExcludeAllSpec(declared, exclude.value);
        DropKeepsOrder(declared, Elems(exclude.value));
      } else {
        DropNothing(declared);
        DropKeepsOrder(declared, {});
      }
    } else {
      DropNothing(declared);
      DropKeepsOrder(declared, {});
    }
  }

  /** The serializer whose `__init__` narrows its fields in place. */
  class DynamicModelSerializer {
    /** The keys of `self.fields`, in order. */
    var fields: seq<string>

    /** `ModelSerializer.__init__`: the fields declared by the serializer's Meta. */
    constructor (declared: seq<string>)
      ensures fields == declared
    {
      fields := declared;
    }

    /**
     * The rest of `DynamicModelSerializer.__init__`: pops fields in place.
     * On success `fields` is the projection; a `KeyError` aborts the
     * constructor, so the partly popped object is not described.
     */
    method ApplyFieldOptions(only: Option<seq<string>>, exclude: Option<seq<string>>) returns (err: Option<FieldError>)
      modifies this
      ensures err.None? <==> Project(old(fields), only, exclude).Ok?
      ensures err.None? ==> fields == Project(old(fields), only, exclude).value
      ensures err.Some? ==> Project(old(fields), only, exclude) == Err(err.value)
    {
      err := None;
      ghost var declared := fields;
      if Truthy(only) != Truthy(exclude) {
        if only.Some? {
          var allowed := Elems(only.value);
          var existing := Elems(fields);
          var toPop := existing - allowed;
          var rest := toPop;
          DropNothing(declared);
          assert toPop - rest == {};
          while rest != {}
            invariant rest <= toPop
            invariant fields == Drop(declared, toPop - rest)
            decreases rest
          {
            var name :| name in rest;
            ghost var popped := toPop - rest;
            DropTwice(declared, popped, {name});
            fields := Drop(fields, {name});
            rest := rest - {name};
            assert toPop - rest == popped + {name};
          }
          assert toPop - rest == toPop;
        } else if exclude.Some? {
          var names := exclude.value;
          var i := 0;
          assert names[i..] == names;
          while i < |names|
            invariant 0 <= i <= |names|
            invariant ExcludeAll(fields, names[i..]) == ExcludeAll(declared, names)
          {
            var name := names[i];
            assert names[i..][0] == name && names[i..][1..] == names[i + 1..];
            if name !in fields {
              err := Some(KeyError(name));
              return;
            }
            fields := Drop(fields, {name});
            i := i + 1;
          }
        }
      }
    }
  }
}
