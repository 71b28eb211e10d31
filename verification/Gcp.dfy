/** Pointer and late-initialisation helpers shared by every client package
    (pkg/clients/gcp.go). */
module Gcp {

  /** A Go pointer to a value: nil or a value. */
  datatype Option<+T> = None | Some(value: T)

  /** What a Go call does: return a value, or panic on a nil dereference. */
  datatype Outcome<+T> = Returns(value: T) | Panics

  /** A Go pointer that is written through: assigning a field of the struct behind it
      replaces the struct value. */
  class Pointer<T> {
    var it: T

    constructor (v: T)
      ensures it == v
    {
      it := v;
    }
  }

  function StringValue(v: Option<string>): string {
    if v.None? then "" else v.value
  }

  function Int64Value(v: Option<int>): int {
    if v.None? then 0 else v.value
  }

  function BoolValue(v: Option<bool>): bool {
    if v.None? then false else v.value
  }

  /** A set value is never replaced, and the value read afterwards is the set one or `from`. */
  function LateInitializeString(s: Option<string>, from: string): (r: Option<string>)
    ensures s.Some? ==> r == s
    ensures StringValue(r) == if s.Some? then s.value else from
    ensures r.None? <==> s.None? && from == ""
  {
    if s.Some? || from == "" then s else Some(from)
  }

  function LateInitializeInt64(s: Option<int>, from: int): (r: Option<int>)
    ensures s.Some? ==> r == s
    ensures Int64Value(r) == if s.Some? then s.value else from
    ensures r.None? <==> s.None? && from == 0
  {
    if s.Some? || from == 0 then s else Some(from)
  }

  function LateInitializeBool(s: Option<bool>, from: bool): (r: Option<bool>)
    ensures s.Some? ==> r == s
    ensures BoolValue(r) == if s.Some? then s.value else from
    ensures r.None? <==> s.None? && !from
  {
    if s.Some? || !from then s else Some(from)
  }

  /** Nil and empty slices are one value here: every caller only asks for the length. */
  function LateInitializeStringSlice(s: seq<string>, from: seq<string>): (r: seq<string>)
    ensures s != [] ==> r == s
    ensures s == [] ==> r == from
  {
    if |s| != 0 || |from| == 0 then s else from
  }

  function LateInitializeStringMap(s: map<string, string>, from: map<string, string>): (r: map<string, string>)
    ensures s != map[] ==> r == s
    ensures s == map[] ==> r == from
  {
    if |s| != 0 || |from| == 0 then s else from
  }

  /** The value behind a pointer, or the zero value a nil pointer is replaced by. */
  function OrZero<T>(v: Option<T>, zero: T): T {
    if v.Some? then v.value else zero
  }

  /** The first of two pointers that is set: both how a one-field config is
      overlaid and how it is late-initialised. */
  function Prefer<T>(s: Option<T>, o: Option<T>): Option<T> {
    if s.Some? then s else o
  }

  /** What the user set is what is there; what the user left unset is free. */
  predicate Says<T(==)>(s: Option<T>, o: T) {
    s.Some? ==> s.value == o
  }

  predicate SaysList<T(==)>(s: seq<T>, o: seq<T>) {
    s != [] ==> s == o
  }

  /** A set value is still set, to the same value. */
  predicate Kept<T(==)>(s: Option<T>, t: Option<T>) {
    s.Some? ==> t == s
  }
}
