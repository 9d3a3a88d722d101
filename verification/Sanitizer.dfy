/**
  The type check in front of every set: a value is accepted for the datatype of its signal or
  rejected, and accepted scalars are converted in place.
 */
module Sanitizer {
  import opened Basics
  import opened Json
  import opened Strings

  datatype NumType = U8 | I8 | U16 | I16 | U32 | I32 | U64 | I64 | F32 | F64

  datatype Converted = Finite(x: real) | Infinite(positive: bool) | Failed

  /** What the JSON library supplies: conversion to a number, text of a value, float limits. */
  datatype Library = Library(
    convert: (NumType, Json) -> Converted, text: Json -> string, floatMax: real, doubleMax: real)

  datatype Error = OutOfBounds | Unsupported | Malformed

  function NumTypeOf(dt: string): Option<NumType> {
    if dt == "uint8" then Some(U8) else if dt == "int8" then Some(I8)
    else if dt == "uint16" then Some(U16) else if dt == "int16" then Some(I16)
    else if dt == "uint32" then Some(U32) else if dt == "int32" then Some(I32)
    else if dt == "uint64" then Some(U64) else if dt == "int64" then Some(I64)
    else if dt == "float" then Some(F32) else if dt == "double" then Some(F64)
    else None
  }

  predicate IsFloat(t: NumType) { t.F32? || t.F64? }

  function Hi(lib: Library, t: NumType): real {
    match t
    case U8 => 255.0 case I8 => 127.0 case U16 => 65535.0 case I16 => 32767.0
    case U32 => 4294967295.0 case I32 => 2147483647.0
    case U64 => 18446744073709551615.0 case I64 => 9223372036854775807.0
    case F32 => lib.floatMax case F64 => lib.doubleMax
  }

  function Lo(lib: Library, t: NumType): real {
    match t
    case U8 => 0.0 case U16 => 0.0 case U32 => 0.0 case U64 => 0.0
    case I8 => -128.0 case I16 => -32768.0 case I32 => -2147483648.0
    case I64 => -9223372036854775808.0
    case F32 => -lib.floatMax case F64 => -lib.doubleMax
  }

  /** A number of the type: in its range, and whole unless it is a float. */
  predicate InRange(lib: Library, t: NumType, x: real) {
    Lo(lib, t) <= x <= Hi(lib, t) && (IsFloat(t) || x.Floor as real == x)
  }

  /** The number stored back as a JSON value. */
  function Box(t: NumType, x: real): Json {
    if IsFloat(t) then Real(x) else Int(x.Floor)
  }

  /** Conversions end in the type's range and leave a number of the type alone. */
  ghost predicate Sound(lib: Library) {
    && (forall t, j :: lib.convert(t, j).Finite? ==> InRange(lib, t, lib.convert(t, j).x))
    && (forall t, j :: lib.convert(t, j).Infinite? ==> IsFloat(t))
    && (forall t, x :: InRange(lib, t, x) ==> lib.convert(t, Box(t, x)) == Finite(x))
    && (forall s :: lib.text(Str(s)) == s)
    && lib.text(Bool(true)) == "true" && lib.text(Bool(false)) == "false"
  }

  // ------------------------------------------------------------------ scalars

  /** `x < limit` for a minimum, `x > limit` for a maximum. */
  predicate Outside(x: real, limit: Converted, isMin: bool) {
    match limit
    case Finite(m) => if isMin then x < m else x > m
    case Infinite(positive) => positive == isMin
    case Failed => false
  }

  function CheckLimit(lib: Library, t: NumType, meta: map<string, Json>, key: string, x: real): Option<Error> {
    if key !in meta then None
    else
      var limit := lib.convert(t, meta[key]);
      if limit.Failed? then Some(Malformed)
      else if Outside(x, limit, key == "min") then Some(OutOfBounds)
      else None
  }

  function CheckNum(lib: Library, t: NumType, meta: map<string, Json>, val: Json): Result<Json, Error> {
    match lib.convert(t, val)
    case Failed => Err(OutOfBounds)
    case Infinite(_) => Err(OutOfBounds)
    case Finite(x) =>
      var low := CheckLimit(lib, t, meta, "min", x);
      if low.Some? then Err(low.value)
      else
        var high := CheckLimit(lib, t, meta, "max", x);
        if high.Some? then Err(high.value) else Ok(Box(t, x))
  }

  function CheckBool(lib: Library, val: Json): Result<Json, Error> {
    var v := EraseAll(lib.text(val), "\"");
    if v == "true" then Ok(Bool(true)) else if v == "false" then Ok(Bool(false)) else Err(OutOfBounds)
  }

  /** The value is one of the strings of the definition. */
  ghost predicate Allowed(lib: Library, def: Json, val: Json) {
    def.Arr? && exists i | 0 <= i < |def.items| :: Str(lib.text(def.items[i])) == val
  }

  ghost function CheckString(lib: Library, meta: map<string, Json>, val: Json): Result<Json, Error> {
    if "allowed" in meta && !meta["allowed"].Arr? then Err(Malformed)
    else if "allowed" in meta && !Allowed(lib, meta["allowed"], val) then Err(OutOfBounds)
    else if "enum" in meta && !meta["enum"].Arr? then Err(Malformed)
    else if "enum" in meta && !Allowed(lib, meta["enum"], val) then Err(OutOfBounds)
    else Ok(val)
  }

  // ------------------------------------------------------------------ array datatypes

  const NPOS: int := 0xFFFF_FFFF_FFFF_FFFF

  /** std::string::rfind("[]"): the last match, or npos. */
  function RFindBrackets(dt: string): (i: int)
    ensures i == NPOS || (0 <= i <= |dt| - 2 && dt[i..i + 2] == "[]")
    ensures |dt| >= 2 && dt[|dt| - 2..] == "[]" ==> i == |dt| - 2
    ensures i == |dt| - 2 && i != NPOS ==> dt[|dt| - 2..] == "[]"
    ensures |dt| < 2 ==> i == NPOS
  {
    if |dt| < 2 then NPOS
    else if dt[|dt| - 2..] == "[]" then |dt| - 2
    else
      var r := RFindBrackets(dt[..|dt| - 1]);
      r
  }

  /** size() - 2 on an unsigned size: it wraps below two characters. */
  function SizeMinus2(dt: string): int {
    if |dt| >= 2 then |dt| - 2 else |dt| - 2 + NPOS + 1
  }

  predicate IsArrayType(dt: string) {
    RFindBrackets(dt) == SizeMinus2(dt)
  }

  /** substr(0, size() - 2): everything, when the count has wrapped. */
  function ElementType(dt: string): string {
    if SizeMinus2(dt) <= |dt| then dt[..SizeMinus2(dt)] else dt
  }

  function ElementMeta(dt: string): map<string, Json> {
    map["datatype" := Str(ElementType(dt))]
  }

  // ------------------------------------------------------------------ the check

  ghost function Sanitize(lib: Library, meta: map<string, Json>, val: Json): Result<Json, Error>
    decreases val, 1
  {
    if "datatype" !in meta then Err(Malformed)
    else
      var dt := lib.text(meta["datatype"]);
      if NumTypeOf(dt).Some? then CheckNum(lib, NumTypeOf(dt).value, meta, val)
      else if dt == "boolean" then CheckBool(lib, val)
      else if dt == "string" then CheckString(lib, meta, val)
      else if IsArrayType(dt) then
        if val.Arr? && AllAccepted(lib, ElementMeta(dt), val.items) then Ok(val) else Err(OutOfBounds)
      else Err(Unsupported)
  }

  /** Every element passes the check of the element type. */
  ghost predicate AllAccepted(lib: Library, meta: map<string, Json>, items: seq<Json>)
    decreases items, 0
  {
    forall i | 0 <= i < |items| :: Sanitize(lib, meta, items[i]).Ok?
  }

  method CheckEnumType(lib: Library, def: Json, val: Json) returns (err: Option<Error>)
    ensures err.None? <==> Allowed(lib, def, val)
    ensures err.Some? ==> err.value == if def.Arr? then OutOfBounds else Malformed
  {
    if !def.Arr? {
      return Some(Malformed);
    }
    for i := 0 to |def.items|
      invariant forall j | 0 <= j < i :: Str(lib.text(def.items[j])) != val
    {
      if Str(lib.text(def.items[i])) == val {
        return None;
      }
    }
    return Some(OutOfBounds);
  }

  method CheckArrayType(lib: Library, dt: string, val: Json) returns (err: Option<Error>)
    ensures err.None? <==> val.Arr? && AllAccepted(lib, ElementMeta(dt), val.items)
    ensures err.Some? ==> err.value == OutOfBounds
    decreases val, 0
  {
    if !val.Arr? {
      return Some(OutOfBounds);
    }
    var metadata := ElementMeta(dt);
    for i := 0 to |val.items|
      invariant forall j | 0 <= j < i :: Sanitize(lib, metadata, val.items[j]).Ok?
    {
      // the loop variable is a copy: what the check stores there is thrown away
      var v, e := CheckAndSanitizeType(lib, metadata, val.items[i]);
      if e.Some? {
        return Some(OutOfBounds);
      }
    }
    return None;
  }

  /** `out` is the value as the check leaves it, also when it throws. */
  method CheckAndSanitizeType(lib: Library, meta: map<string, Json>, val: Json) returns (out: Json, err: Option<Error>)
    ensures Sanitize(lib, meta, val) == if err.None? then Ok(out) else Err(err.value)
    ensures err.Some? ==> out == val
    decreases val, 1
  {
    out, err := val, None;
    if "datatype" !in meta {
      err := Some(Malformed);
      return;
    }
    var dt := lib.text(meta["datatype"]);
    var t := NumTypeOf(dt);
    if t.Some? || dt == "boolean" {
      match if t.Some? then CheckNum(lib, t.value, meta, val) else CheckBool(lib, val) {
        case Ok(v) => out := v;
        case Err(e) => err := Some(e);
      }
    } else if dt == "string" {
      if "allowed" in meta {
        err := CheckEnumType(lib, meta["allowed"], val);
        if err.Some? {
          return;
        }
      }
      if "enum" in meta {
        err := CheckEnumType(lib, meta["enum"], val);
      }
    } else if IsArrayType(dt) {
      err := CheckArrayType(lib, dt, val);
    } else {
      err := Some(Unsupported);
    }
  }

  // ------------------------------------------------------------------ what acceptance means

  /** A number of the type, inside the limits of the signal. */
  ghost predicate Fitting(lib: Library, t: NumType, meta: map<string, Json>, x: real) {
    && InRange(lib, t, x)
    && ("min" in meta ==>
          match lib.convert(t, meta["min"])
          case Finite(m) => m <= x
          case Infinite(positive) => !positive
          case Failed => false)
    && ("max" in meta ==>
          match lib.convert(t, meta["max"])
          case Finite(m) => x <= m
          case Infinite(positive) => positive
          case Failed => false)
  }

  /**
    A value is accepted for a numeric type, and stored as `w`, if and only if it converts to a
    number of the type inside the limits of the signal and `w` is that number.
   */
  lemma {:induction false} NumberAcceptedIff(lib: Library, meta: map<string, Json>, val: Json, t: NumType, w: Json)
    requires Sound(lib) && "datatype" in meta && NumTypeOf(lib.text(meta["datatype"])) == Some(t)
    ensures Sanitize(lib, meta, val) == Ok(w) <==>
              exists x :: lib.convert(t, val) == Finite(x) && Fitting(lib, t, meta, x) && w == Box(t, x)
  {
    if Sanitize(lib, meta, val) == Ok(w) {
      var x := lib.convert(t, val).x;
      assert lib.convert(t, val) == Finite(x) && Fitting(lib, t, meta, x) && w == Box(t, x);
    }
  }

  /** The values the check leaves alone are exactly the numbers of the type inside the limits. */
  lemma {:induction false} NumberUnchangedIff(lib: Library, meta: map<string, Json>, w: Json, t: NumType)
    requires Sound(lib) && "datatype" in meta && NumTypeOf(lib.text(meta["datatype"])) == Some(t)
    ensures Sanitize(lib, meta, w) == Ok(w) <==> exists x :: Fitting(lib, t, meta, x) && w == Box(t, x)
  {
    NumberAcceptedIff(lib, meta, w, t, w);
    forall x | Fitting(lib, t, meta, x) && w == Box(t, x) ensures Sanitize(lib, meta, w) == Ok(w) {
      assert lib.convert(t, Box(t, x)) == Finite(x);
    }
  }

  lemma {:induction false} BoolText()
    ensures EraseAll("true", "\"") == "true" && EraseAll("false", "\"") == "false"
  {
    ReplaceSkips("true", "", "\"", "");
    ReplaceSkips("false", "", "\"", "");
    assert "true" + "" == "true" && "false" + "" == "false";
    assert ReplaceAll("", "\"", "") == "";
  }

  /** Sanitising what was accepted accepts it again and changes nothing. */
  lemma {:induction false} SanitizeTwice(lib: Library, meta: map<string, Json>, val: Json)
    requires Sound(lib) && Sanitize(lib, meta, val).Ok?
    ensures Sanitize(lib, meta, Sanitize(lib, meta, val).value) == Sanitize(lib, meta, val)
  {
    var dt := lib.text(meta["datatype"]);
    if NumTypeOf(dt).Some? {
      NumTwice(lib, NumTypeOf(dt).value, meta, val);
    } else if dt == "boolean" {
      BoolTwice(lib, val);
    }
  }

  lemma {:induction false} BoolTwice(lib: Library, val: Json)
    requires Sound(lib) && CheckBool(lib, val).Ok?
    ensures CheckBool(lib, CheckBool(lib, val).value) == CheckBool(lib, val)
  {
    BoolText();
  }

  lemma {:induction false} NumTwice(lib: Library, t: NumType, meta: map<string, Json>, val: Json)
    requires Sound(lib) && CheckNum(lib, t, meta, val).Ok?
    ensures CheckNum(lib, t, meta, CheckNum(lib, t, meta, val).value) == CheckNum(lib, t, meta, val)
  {
    var x := lib.convert(t, val).x;
    assert InRange(lib, t, x);
    assert lib.convert(t, Box(t, x)) == Finite(x);
  }

  /** An array is accepted exactly if all its elements are, and it is itself left unchanged. */
  lemma {:induction false} ArrayAcceptedIff(lib: Library, meta: map<string, Json>, val: Json)
    requires Sound(lib) && "datatype" in meta && |lib.text(meta["datatype"])| >= 2
    requires var dt := lib.text(meta["datatype"]); dt[|dt| - 2..] == "[]"
    ensures
      var dt := lib.text(meta["datatype"]);
      && (Sanitize(lib, meta, val).Ok? <==>
            val.Arr? && forall v | v in val.items :: Sanitize(lib, map["datatype" := Str(dt[..|dt| - 2])], v).Ok?)
      && (Sanitize(lib, meta, val).Ok? ==> Sanitize(lib, meta, val).value == val)
      && (Sanitize(lib, meta, val).Err? ==> Sanitize(lib, meta, val).error == OutOfBounds)
  {
    var dt := lib.text(meta["datatype"]);
    assert dt[|dt| - 1] == dt[|dt| - 2..][1] == ']';
    BracketTypes(dt);
    if val.Arr? {
      forall i | 0 <= i < |val.items| ensures val.items[i] in val.items {
      }
    }
  }

  lemma {:induction false} BracketTypes(dt: string)
    requires dt != "" && dt[|dt| - 1] == ']'
    ensures NumTypeOf(dt).None? && dt != "boolean" && dt != "string"
  {
  }

  /** A value that is nothing but arrays. */
  predicate Hollow(j: Json) {
    j.Arr? && forall i | 0 <= i < |j.items| :: Hollow(j.items[i])
  }

  /**
    A datatype of one character: size() - 2 wraps to npos, the type counts as an array of
    itself, and the check accepts exactly the values that consist of nothing but arrays.  The
    recursion ends because the value gets smaller; the datatype does not.
   */
  lemma {:induction false} OneCharacterType(lib: Library, meta: map<string, Json>, val: Json)
    requires Sound(lib) && "datatype" in meta && |lib.text(meta["datatype"])| == 1
    ensures Sanitize(lib, meta, val).Ok? <==> Hollow(val)
    decreases val
  {
    var dt := lib.text(meta["datatype"]);
    assert NumTypeOf(dt).None? && dt != "boolean" && dt != "string";
    assert IsArrayType(dt) && ElementType(dt) == dt;
    if val.Arr? {
      forall i | 0 <= i < |val.items|
        ensures Sanitize(lib, ElementMeta(dt), val.items[i]).Ok? <==> Hollow(val.items[i])
      {
        OneCharacterType(lib, ElementMeta(dt), val.items[i]);
      }
    }
  }

  /** With an empty datatype the count wraps past npos, so nothing is accepted. */
  lemma {:induction false} EmptyType(lib: Library, meta: map<string, Json>, val: Json)
    requires "datatype" in meta && lib.text(meta["datatype"]) == ""
    ensures Sanitize(lib, meta, val) == Err(Unsupported)
  {
  }
}
