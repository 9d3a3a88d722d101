/**
  What the type check accepts and stores for each datatype, by the names and bounds that the
  signal catalogue uses.
 */
module TypeTable {
  import opened Basics
  import opened Json
  import opened Strings
  import opened Sanitizer

  /** The signal has this datatype. */
  predicate Typed(lib: Library, meta: map<string, Json>, name: string) {
    "datatype" in meta && lib.text(meta["datatype"]) == name
  }

  /** The integer datatypes, each with its least and its greatest number. */
  predicate IntegerType(name: string, lo: int, hi: int) {
    || (name == "uint8" && lo == 0 && hi == 255)
    || (name == "int8" && lo == -128 && hi == 127)
    || (name == "uint16" && lo == 0 && hi == 65535)
    || (name == "int16" && lo == -32768 && hi == 32767)
    || (name == "uint32" && lo == 0 && hi == 4294967295)
    || (name == "int32" && lo == -2147483648 && hi == 2147483647)
    || (name == "uint64" && lo == 0 && hi == 18446744073709551615)
    || (name == "int64" && lo == -9223372036854775808 && hi == 9223372036854775807)
  }

  predicate FloatType(lib: Library, name: string, max: real) {
    (name == "float" && max == lib.floatMax) || (name == "double" && max == lib.doubleMax)
  }

  lemma {:induction false} IntegerIs(lib: Library, name: string, lo: int, hi: int) returns (t: NumType)
    requires IntegerType(name, lo, hi)
    ensures NumTypeOf(name) == Some(t) && !IsFloat(t) && Lo(lib, t) == lo as real && Hi(lib, t) == hi as real
  {
    t := NumTypeOf(name).value;
  }

  /** A whole number is in range of an integer type exactly between its bounds. */
  lemma {:induction false} WholeInRange(lib: Library, t: NumType, n: int, lo: int, hi: int)
    requires !IsFloat(t) && Lo(lib, t) == lo as real && Hi(lib, t) == hi as real
    ensures InRange(lib, t, n as real) <==> lo <= n <= hi
    ensures Box(t, n as real) == Int(n)
  {
    assert (n as real).Floor == n;
  }

  /** The limits of a signal, given as whole numbers of its type. */
  predicate WholeLimits(meta: map<string, Json>, lo: int, hi: int) {
    && ("min" in meta ==> meta["min"].Int? && lo <= meta["min"].i <= hi)
    && ("max" in meta ==> meta["max"].Int? && lo <= meta["max"].i <= hi)
  }

  predicate WithinWhole(meta: map<string, Json>, n: int) {
    && ("min" in meta ==> meta["min"].Int? && meta["min"].i <= n)
    && ("max" in meta ==> meta["max"].Int? && n <= meta["max"].i)
  }

  lemma {:induction false} WholeLimit(lib: Library, t: NumType, m: int, lo: int, hi: int)
    requires Sound(lib) && !IsFloat(t) && Lo(lib, t) == lo as real && Hi(lib, t) == hi as real && lo <= m <= hi
    ensures lib.convert(t, Int(m)) == Finite(m as real)
  {
    WholeInRange(lib, t, m, lo, hi);
    assert lib.convert(t, Box(t, m as real)) == Finite(m as real);
  }

  /** What the limits mean, once they are converted. */
  lemma {:induction false} WholeFitting(lib: Library, t: NumType, meta: map<string, Json>, n: int, lo: int, hi: int)
    requires Sound(lib) && !IsFloat(t) && Lo(lib, t) == lo as real && Hi(lib, t) == hi as real
    requires WholeLimits(meta, lo, hi)
    ensures Fitting(lib, t, meta, n as real) <==> lo <= n <= hi && WithinWhole(meta, n)
  {
    WholeInRange(lib, t, n, lo, hi);
    if "min" in meta {
      WholeLimit(lib, t, meta["min"].i, lo, hi);
    }
    if "max" in meta {
      WholeLimit(lib, t, meta["max"].i, lo, hi);
    }
  }

  /** A number whose limits all convert is accepted, or out of bounds. */
  lemma {:induction false} FittingDecides(lib: Library, t: NumType, meta: map<string, Json>, val: Json)
    requires Sound(lib) && "datatype" in meta && NumTypeOf(lib.text(meta["datatype"])) == Some(t)
    requires "min" in meta ==> !lib.convert(t, meta["min"]).Failed?
    requires "max" in meta ==> !lib.convert(t, meta["max"]).Failed?
    ensures
      var c := lib.convert(t, val);
      Sanitize(lib, meta, val) ==
        if c.Finite? && Fitting(lib, t, meta, c.x) then Ok(Box(t, c.x)) else Err(OutOfBounds)
  {
  }

  /**
    Integer datatypes.  Whatever is accepted is stored as a whole number between the bounds of
    the type and within the limits of the signal, and every such number is accepted unchanged;
    a number of the type outside the limits, and whatever is refused, is out of bounds.
   */
  lemma {:induction false} IntegerTypes(
      lib: Library, meta: map<string, Json>, val: Json, n: int, name: string, lo: int, hi: int)
    requires Sound(lib) && Typed(lib, meta, name) && IntegerType(name, lo, hi) && WholeLimits(meta, lo, hi)
    ensures
      match Sanitize(lib, meta, val)
      case Ok(w) => w.Int? && lo <= w.i <= hi && WithinWhole(meta, w.i)
      case Err(e) => e == OutOfBounds
    ensures lo <= n <= hi ==>
      Sanitize(lib, meta, Int(n)) == if WithinWhole(meta, n) then Ok(Int(n)) else Err(OutOfBounds)
  {
    var t := IntegerIs(lib, name, lo, hi);
    LimitsConvert(lib, t, meta, lo, hi);
    FittingDecides(lib, t, meta, val);
    if Sanitize(lib, meta, val).Ok? {
      var x := lib.convert(t, val).x;
      assert x.Floor as real == x;
      WholeFitting(lib, t, meta, x.Floor, lo, hi);
      WholeInRange(lib, t, x.Floor, lo, hi);
    }
    if lo <= n <= hi {
      WholeLimit(lib, t, n, lo, hi);
      FittingDecides(lib, t, meta, Int(n));
      WholeFitting(lib, t, meta, n, lo, hi);
      WholeInRange(lib, t, n, lo, hi);
    }
  }

  lemma {:induction false} LimitsConvert(lib: Library, t: NumType, meta: map<string, Json>, lo: int, hi: int)
    requires Sound(lib) && !IsFloat(t) && Lo(lib, t) == lo as real && Hi(lib, t) == hi as real
    requires WholeLimits(meta, lo, hi)
    ensures "min" in meta ==> !lib.convert(t, meta["min"]).Failed?
    ensures "max" in meta ==> !lib.convert(t, meta["max"]).Failed?
  {
    if "min" in meta {
      WholeLimit(lib, t, meta["min"].i, lo, hi);
    }
    if "max" in meta {
      WholeLimit(lib, t, meta["max"].i, lo, hi);
    }
  }

  predicate RealLimits(meta: map<string, Json>, max: real) {
    && ("min" in meta ==> meta["min"].Real? && -max <= meta["min"].r <= max)
    && ("max" in meta ==> meta["max"].Real? && -max <= meta["max"].r <= max)
  }

  predicate WithinReal(meta: map<string, Json>, x: real) {
    && ("min" in meta ==> meta["min"].Real? && meta["min"].r <= x)
    && ("max" in meta ==> meta["max"].Real? && x <= meta["max"].r)
  }

  lemma {:induction false} FloatIs(lib: Library, name: string, max: real) returns (t: NumType)
    requires FloatType(lib, name, max)
    ensures NumTypeOf(name) == Some(t) && IsFloat(t) && t == if name == "float" then F32 else F64
    ensures forall x {:trigger InRange(lib, t, x)} :: InRange(lib, t, x) <==> -max <= x <= max
    ensures forall x {:trigger Box(t, x)} :: Box(t, x) == Real(x)
  {
    t := NumTypeOf(name).value;
  }

  lemma {:induction false} RealLimit(lib: Library, t: NumType, x: real)
    requires Sound(lib) && IsFloat(t) && InRange(lib, t, x)
    ensures lib.convert(t, Real(x)) == Finite(x)
  {
    assert lib.convert(t, Box(t, x)) == Finite(x);
  }

  /** Float datatypes, likewise; infinity is out of bounds. */
  lemma {:induction false} FloatTypes(
      lib: Library, meta: map<string, Json>, val: Json, x: real, name: string, max: real)
    requires Sound(lib) && Typed(lib, meta, name) && FloatType(lib, name, max) && RealLimits(meta, max)
    ensures
      match Sanitize(lib, meta, val)
      case Ok(w) => w.Real? && -max <= w.r <= max && WithinReal(meta, w.r)
      case Err(e) => e == OutOfBounds
    ensures -max <= x <= max ==>
      Sanitize(lib, meta, Real(x)) == if WithinReal(meta, x) then Ok(Real(x)) else Err(OutOfBounds)
    ensures lib.convert(if name == "float" then F32 else F64, val).Infinite? ==>
      Sanitize(lib, meta, val) == Err(OutOfBounds)
  {
    var t := FloatIs(lib, name, max);
    if "min" in meta {
      RealLimit(lib, t, meta["min"].r);
    }
    if "max" in meta {
      RealLimit(lib, t, meta["max"].r);
    }
    FittingDecides(lib, t, meta, val);
    if Sanitize(lib, meta, val).Ok? {
      var y := lib.convert(t, val).x;
      assert InRange(lib, t, y) && Box(t, y) == Real(y);
    }
    if -max <= x <= max {
      RealLimit(lib, t, x);
      FittingDecides(lib, t, meta, Real(x));
      assert Box(t, x) == Real(x);
    }
  }

  /** A limit that does not convert is malformed, unless the value is refused before it is looked at. */
  lemma {:induction false} BadLimit(lib: Library, meta: map<string, Json>, val: Json, name: string, t: NumType)
    requires Typed(lib, meta, name) && NumTypeOf(name) == Some(t) && lib.convert(t, val).Finite?
    ensures "min" in meta && lib.convert(t, meta["min"]).Failed? ==> Sanitize(lib, meta, val) == Err(Malformed)
    ensures "min" !in meta && "max" in meta && lib.convert(t, meta["max"]).Failed? ==>
              Sanitize(lib, meta, val) == Err(Malformed)
  {
  }

  // ------------------------------------------------------------------ booleans and strings

  /** `s` without the character `c`. */
  function Without(s: string, c: char): string {
    if s == "" then "" else (if s[0] == c then "" else [s[0]]) + Without(s[1..], c)
  }

  lemma {:induction false} EraseIsWithout(s: string, c: char)
    ensures EraseAll(s, [c]) == Without(s, c)
    decreases |s|
  {
    if s != "" {
      EraseIsWithout(s[1..], c);
      assert s[..1] == [s[0]];
    }
  }

  /** Booleans: the text of the value, without quotes, is true or false, and that is stored. */
  lemma {:induction false} BooleanType(lib: Library, meta: map<string, Json>, val: Json)
    requires Typed(lib, meta, "boolean")
    ensures
      var t := Without(lib.text(val), '"');
      Sanitize(lib, meta, val) ==
        if t == "true" then Ok(Bool(true)) else if t == "false" then Ok(Bool(false)) else Err(OutOfBounds)
  {
    EraseIsWithout(lib.text(val), '"');
  }

  /** A list of allowed strings admits the value. */
  ghost predicate Admits(lib: Library, meta: map<string, Json>, key: string, val: Json) {
    key in meta ==> meta[key].Arr? && exists item :: item in meta[key].items && val == Str(lib.text(item))
  }

  /** Strings: accepted exactly if both lists, where given, admit the value, and never changed. */
  lemma {:induction false} StringType(lib: Library, meta: map<string, Json>, val: Json)
    requires Typed(lib, meta, "string")
    ensures Sanitize(lib, meta, val).Ok? <==> Admits(lib, meta, "allowed", val) && Admits(lib, meta, "enum", val)
    ensures Sanitize(lib, meta, val).Ok? ==> Sanitize(lib, meta, val).value == val
  {
    AllowedIff(lib, meta, "allowed", val);
    AllowedIff(lib, meta, "enum", val);
  }

  lemma {:induction false} AllowedIff(lib: Library, meta: map<string, Json>, key: string, val: Json)
    ensures Admits(lib, meta, key, val) <==> (key in meta ==> Allowed(lib, meta[key], val))
  {
    if key in meta && meta[key].Arr? {
      var items := meta[key].items;
      if item :| item in items && val == Str(lib.text(item)) {
        var i :| 0 <= i < |items| && items[i] == item;
        assert Str(lib.text(items[i])) == val;
      }
      if i :| 0 <= i < |items| && Str(lib.text(items[i])) == val {
        assert items[i] in items;
      }
    }
  }

  // ------------------------------------------------------------------ everything else

  const NAMES: set<string> := {
    "uint8", "int8", "uint16", "int16", "uint32", "int32", "uint64", "int64", "float", "double", "boolean", "string"}

  /**
    Any other datatype of two characters or more that is no array is unsupported, and a signal
    without one is malformed.  No string is as long as npos.
   */
  lemma {:induction false} OtherTypes(lib: Library, meta: map<string, Json>, val: Json, name: string)
    ensures "datatype" !in meta ==> Sanitize(lib, meta, val) == Err(Malformed)
    ensures Typed(lib, meta, name) && 2 <= |name| < NPOS && name[|name| - 2..] != "[]" && name !in NAMES ==>
      Sanitize(lib, meta, val) == Err(Unsupported)
  {
  }
}
