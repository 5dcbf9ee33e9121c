/**
 * Field coercion: total functions from an arbitrary host value to a typed
 * value, falling back to a default where no value of the target type can be
 * derived. None of them can fail.
 */
module Coercion {
  import opened Wrappers
  import opened JsValues

  /** A user reference (account, owner, creator, modifier, partner). */
  datatype User = User(name: string, id: string)

  /** The values from which the string coercions derive a string: strings, and objects with a `name` key. */
  predicate Derivable(v: JsValue) {
    v.JStr? || HasKey(v, "name")
  }

  /**
   * `safeString`: a string is returned as is, an object with a `name` key
   * gives `String(name)`, anything else the default.
   */
  function SafeString(rt: Runtime, v: JsValue, default: string): (r: string)
    ensures v.JStr? ==> r == v.s
    ensures HasKey(v, "name") ==> r == ToStr(rt, v.fields["name"])
    ensures !Derivable(v) ==> r == default
  {
    if v.JStr? then v.s
    else if Truthy(v) && TypeofObject(v) && HasKey(v, "name") then ToStr(rt, Get(v, "name"))
    else default
  }

  /**
   * `safeStringOrNull`: the same derivation as `SafeString`, with `null`
   * exactly where `SafeString` falls back to its default, whatever that
   * default is.
   */
  function SafeStringOrNull(rt: Runtime, v: JsValue): (r: Option<string>)
    ensures r.Some? <==> Derivable(v)
    ensures forall d ::
      if Derivable(v) then r == Some(SafeString(rt, v, d))
      else r.None? && SafeString(rt, v, d) == d
  {
    if v.JStr? then Some(v.s)
    else if Truthy(v) && TypeofObject(v) && HasKey(v, "name") then Some(ToStr(rt, Get(v, "name")))
    else None
  }

  /**
   * `safeUser`: anything that is not an object or array, a bare string
   * included, gives the default user. On an object the id is coerced from
   * `id`, and the name from `name` when that is truthy; otherwise the object
   * itself is coerced, which prints a falsy `name` if the key exists.
   */
  function SafeUser(rt: Runtime, v: JsValue, defaultName: string): (r: User)
    ensures !(v.JObj? || v.JArr?) ==> r == User(defaultName, "unknown")
    ensures v.JArr? ==> r == User(defaultName, "unknown")
    ensures v.JObj? ==> r.id == SafeString(rt, Get(v, "id"), "unknown")
    ensures v.JObj? && Truthy(Get(v, "name")) ==> r.name == SafeString(rt, Get(v, "name"), defaultName)
    ensures v.JObj? && !Truthy(Get(v, "name")) ==>
              r.name == (if "name" in v.fields then ToStr(rt, v.fields["name"]) else defaultName)
  {
    if Truthy(v) && TypeofObject(v) then
      User(SafeString(rt, Or(Get(v, "name"), v), defaultName), SafeString(rt, Get(v, "id"), "unknown"))
    else
      User(defaultName, "unknown")
  }

  /**
   * `safeNumber`: a number is returned unchanged, finite or not; a string is
   * parsed, falling back to the default when the parse is NaN; anything else
   * gives the default. So NaN comes out only from a NaN number or a NaN default.
   */
  function SafeNumber(rt: Runtime, v: JsValue, default: Num): (r: Num)
    ensures v.JNum? ==> r == v.n
    ensures v.JStr? && rt.parseFloat(v.s) != NaN ==> r == rt.parseFloat(v.s)
    ensures v.JStr? && rt.parseFloat(v.s) == NaN ==> r == default
    ensures !v.JNum? && !v.JStr? ==> r == default
    ensures r == NaN ==> v == JNum(NaN) || default == NaN
  {
    if v.JNum? then v.n
    else if v.JStr? then
      var parsed := rt.parseFloat(v.s);
      if parsed == NaN then default else parsed
    else default
  }

  /** `safeSubform`: a non-array object is kept as its key map; arrays, `null` and primitives give `{}`. */
  function SafeSubform(v: JsValue): (r: map<string, JsValue>)
    ensures v.JObj? ==> r == v.fields
    ensures !v.JObj? ==> r == map[]
  {
    if Truthy(v) && TypeofObject(v) && !v.JArr? then v.fields else map[]
  }

  /** A host user reference `{name, id}` with string fields is read back as that user. */
  lemma HostUserReadBack(rt: Runtime, name: string, id: string, defaultName: string)
    ensures SafeUser(rt, JObj(map["name" := JStr(name), "id" := JStr(id)]), defaultName) == User(name, id)
  {
    var v := JObj(map["name" := JStr(name), "id" := JStr(id)]);
    assert Get(v, "id") == JStr(id);
    if name == "" {
      assert !Truthy(Get(v, "name"));
    }
  }
}
