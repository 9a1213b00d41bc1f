/** How `get($field)` picks a value out of the active user record: the
    whole record, a top-level entry, or a dotted path (`User.id`). */
module FieldPath {
  import opened Php
  import opened PhpStrings

  const PathSeparator: char := '.'

  /** Walks `path` through nested arrays; a missing step yields `null`. */
  function Extract(v: Value, path: seq<string>): (r: Value)
    decreases |path|
  {
    if path == [] then v
    else if v.Arr? && path[0] in v.entries then Extract(v.entries[path[0]], path[1..])
    else Null
  }

  /** Walking a path in two legs is walking it in one. */
  lemma {:induction false} ExtractAppend(v: Value, p: seq<string>, q: seq<string>)
    ensures Extract(v, p + q) == Extract(Extract(v, p), q)
  {
    if p == [] {
      assert p + q == q;
    } else {
      assert (p + q)[0] == p[0] && (p + q)[1..] == p[1..] + q;
      if v.Arr? && p[0] in v.entries {
        ExtractAppend(v.entries[p[0]], p[1..], q);
      } else if q != [] {
        assert Extract(Null, q) == Null;
      }
    }
  }

  /** The field lookup of `get`: an empty field (`null`, `""`, `"0"`)
      gives the whole user; a dot-free field that is a top-level key gives
      that entry; any other dot-free field is qualified by the model name;
      a field with a dot is a path. */
  function Field(user: Value, model: string, field: string): (r: Value)
  {
    if Empty(Str(field)) then user
    else if PathSeparator !in field then
      if user.Arr? && field in user.entries then user.entries[field]
      else Extract(user, Split(model + [PathSeparator] + field, PathSeparator))
    else Extract(user, Split(field, PathSeparator))
  }

  /** The lookup rule of `get`, case by case, in terms of nested lookups:
      a dot-free field missing at the top level is looked up under the
      model's entry, and a dotted field walks its first segment and then
      the rest. */
  lemma FieldLookup(user: Value, model: string, field: string)
    ensures Empty(Str(field)) ==> Field(user, model, field) == user
    ensures !Empty(Str(field)) && PathSeparator !in field && user.Arr? && field in user.entries
      ==> Field(user, model, field) == user.entries[field]
    ensures !Empty(Str(field)) && PathSeparator !in field && PathSeparator !in model
      && !(user.Arr? && field in user.entries)
      ==> Field(user, model, field) == Extract(Extract(user, [model]), [field])
  {
    if !Empty(Str(field)) && PathSeparator !in field && PathSeparator !in model {
      SplitAround(model, PathSeparator, field);
      SplitWithoutDelimiter(model, PathSeparator);
      SplitWithoutDelimiter(field, PathSeparator);
      ExtractAppend(user, [model], [field]);
    }
  }

  /** A dotted field `a.rest` walks into entry `a` and then along `rest`. */
  lemma DottedField(user: Value, model: string, head: string, rest: string)
    requires PathSeparator !in head
    ensures Field(user, model, head + [PathSeparator] + rest)
         == Extract(Extract(user, [head]), Split(rest, PathSeparator))
  {
    var field := head + [PathSeparator] + rest;
    assert field[|head|] == PathSeparator;
    assert field != "0" && field != "";
    SplitAround(head, PathSeparator, rest);
    SplitWithoutDelimiter(head, PathSeparator);
    ExtractAppend(user, [head], Split(rest, PathSeparator));
  }

  /** `get('id')` on `{User: {id: 5, name: 'a'}}` with model `User` is 5. */
  lemma UserIdExample()
    ensures Field(Arr(map["User" := Arr(map["id" := Int(5), "name" := Str("a")])]), "User", "id") == Int(5)
  {
    FieldLookup(Arr(map["User" := Arr(map["id" := Int(5), "name" := Str("a")])]), "User", "id");
  }
}
