/**
 `validate_object` of validation.py, which checks a JSON object and brings the resident number in it, and in the
 backup it may hold, to one form, and `_mask_ssn` of profile.py, which shows what was stored.
 */
module Validation {
  import opened Outcomes

  datatype Json =
    | Null
    | Bool(b: bool)
    | Number(n: int)
    | Str(s: string)
    | List(items: seq<Json>)
    | Object(fields: map<string, Json>)

  const STRING_LIMITS: map<string, nat> := map[
    "username" := 32, "password" := 1024, "current_password" := 1024, "new_password" := 1024, "full_name" := 100,
    "email" := 254, "phone" := 32, "ssn" := 14, "title" := 200, "visibility" := 16, "header" := 2048,
    "footer" := 2048, "filename" := 200, "token" := 128, "role" := 16, "value" := 256]

  const NULLABLE: set<string> := {"full_name", "email", "phone", "ssn"}

  // ---------- resident numbers ----------

  predicate IsDigit(c: char) {
    '0' <= c <= '9'
  }

  /** [0-9]{6}-?[0-9]{7} */
  predicate SsnShape(s: string) {
    && (|s| == 13 || (|s| == 14 && s[6] == '-'))
    && forall i :: 0 <= i < |s| && !(|s| == 14 && i == 6) ==> IsDigit(s[i])
  }

  function WithoutDashes(s: string): string {
    if s == "" then "" else (if s[0] == '-' then "" else [s[0]]) + WithoutDashes(s[1..])
  }

  function NormalSsn(s: string): string
    requires SsnShape(s)
  {
    SsnDigits(s);
    WithoutDashes(s)[..6] + "-" + WithoutDashes(s)[6..]
  }

  predicate Digits(s: string, n: nat) {
    |s| == n && forall i :: 0 <= i < n ==> s[i] in "0123456789"
  }

  lemma DigitChars(c: char)
    ensures c in "0123456789" <==> IsDigit(c)
  {
    if IsDigit(c) {
      assert c == "0123456789"[c as int - '0' as int];
    }
  }

  lemma ShapeHasParts(s: string)
    requires SsnShape(s)
    ensures Digits(s[..6], 6) && Digits(s[|s| - 7..], 7)
    ensures s == s[..6] + s[|s| - 7..] || s == s[..6] + "-" + s[|s| - 7..]
  {
    forall i | 0 <= i < 6
      ensures s[..6][i] in "0123456789"
    {
      DigitChars(s[i]);
    }
    var back := s[|s| - 7..];
    forall i | 0 <= i < 7
      ensures back[i] in "0123456789"
    {
      assert back[i] == s[|s| - 7 + i];
      DigitChars(back[i]);
    }
  }

  lemma PartsHaveShape(a: string, b: string)
    requires Digits(a, 6) && Digits(b, 7)
    ensures SsnShape(a + b) && SsnShape(a + "-" + b)
  {
    forall i | 0 <= i < 6
      ensures IsDigit(a[i])
    {
      DigitChars(a[i]);
    }
    forall i | 0 <= i < 7
      ensures IsDigit(b[i])
    {
      DigitChars(b[i]);
    }
  }

  predicate Spells(s: string, front: string, back: string) {
    Digits(front, 6) && Digits(back, 7) && (s == front + back || s == front + "-" + back)
  }

  /** Six digits, a dash or nothing, seven digits, and nothing else. */
  lemma SsnShapeIff(s: string)
    ensures SsnShape(s) <==> exists front, back :: Spells(s, front, back)
  {
    if SsnShape(s) {
      ShapeLength(s);
      hide SsnShape, Digits;
      ShapeHasParts(s);
      assert Spells(s, s[..6], s[|s| - 7..]);
    }
    hide SsnShape, Digits;
    if front, back :| Spells(s, front, back) {
      PartsHaveShape(front, back);
    }
  }

  lemma ShapeLength(s: string)
    requires SsnShape(s)
    ensures |s| >= 13
  {
  }

  function MaskSsn(ssn: Option<string>): Option<string> {
    if ssn.None? || ssn.value == "" then None
    else if !SsnShape(ssn.value) then Some("******-*******")
    else Some(ssn.value[..6] + "-*******")
  }

  lemma {:induction false} DashFree(s: string)
    requires '-' !in s
    ensures WithoutDashes(s) == s
  {
    if s != "" {
      DashFree(s[1..]);
    }
  }

  lemma {:induction false} DashesSplit(a: string, b: string)
    ensures WithoutDashes(a + b) == WithoutDashes(a) + WithoutDashes(b)
  {
    if a == "" {
      assert a + b == b;
    } else {
      assert (a + b)[1..] == a[1..] + b;
      DashesSplit(a[1..], b);
    }
  }

  lemma JoinDigits(front: string, middle: string, back: string)
    requires '-' !in front && '-' !in back && (middle == "" || middle == "-")
    ensures WithoutDashes(front + middle + back) == front + back
  {
    hide WithoutDashes;
    DashesSplit(front + middle, back);
    DashesSplit(front, middle);
    DashFree(front);
    DashFree(back);
    DashGoes(middle);
  }

  lemma DashGoes(middle: string)
    requires middle == "" || middle == "-"
    ensures WithoutDashes(middle) == ""
  {
  }

  lemma SsnDigits(s: string)
    requires SsnShape(s)
    ensures WithoutDashes(s) == s[..6] + s[|s| - 7..] && |WithoutDashes(s)| == 13
  {
    hide WithoutDashes;
    var front, middle, back := s[..6], s[6..|s| - 7], s[|s| - 7..];
    assert s == front + middle + back;
    assert forall i :: 0 <= i < 7 ==> back[i] == s[|s| - 7 + i];
    JoinDigits(front, middle, back);
  }

  /** Every spelling of a number has the one normal form of its digits, and different numbers keep apart. */
  lemma NormalFormIsCanonical(a: string, b: string)
    requires SsnShape(a) && SsnShape(b)
    ensures SsnShape(NormalSsn(a)) && NormalSsn(NormalSsn(a)) == NormalSsn(a)
    ensures WithoutDashes(NormalSsn(a)) == WithoutDashes(a)
    ensures NormalSsn(a) == NormalSsn(b) <==> WithoutDashes(a) == WithoutDashes(b)
  {
    NormalDigits(a);
    NormalDigits(b);
    NormalDigits(NormalSsn(a));
  }

  lemma NormalDigits(a: string)
    requires SsnShape(a)
    ensures SsnShape(NormalSsn(a)) && WithoutDashes(NormalSsn(a)) == WithoutDashes(a) && |NormalSsn(a)| == 14
  {
    SsnDigits(a);
    SsnDigits(NormalSsn(a));
    var n := NormalSsn(a);
    assert n[..6] == a[..6] && n[7..] == a[|a| - 7..];
  }

  /**
   What is shown tells exactly the first six digits, is the same before and after normalising, and is never itself
   accepted as a number, so a page that sends back what it shows cannot overwrite the stored one.
   */
  lemma MaskTellsSixDigits(a: string, b: string)
    requires SsnShape(a) && SsnShape(b)
    ensures MaskSsn(Some(a)) == MaskSsn(Some(b)) <==> a[..6] == b[..6]
    ensures SsnShape(NormalSsn(a)) && MaskSsn(Some(NormalSsn(a))) == MaskSsn(Some(a))
    ensures !SsnShape(MaskSsn(Some(a)).value)
  {
    SsnDigits(a);
    NormalDigits(a);
    assert NormalSsn(a)[..6] == a[..6];
    var ma, mb := MaskSsn(Some(a)).value, MaskSsn(Some(b)).value;
    assert ma[..6] == a[..6] && mb[..6] == b[..6];
    assert ma[7] == '*';
  }

  /** Anything else that was stored shows none of itself. */
  lemma OthersAreHidden(s: string)
    requires !SsnShape(s)
    ensures MaskSsn(Some(s)) == if s == "" then None else Some("******-*******")
    ensures MaskSsn(None) == None
  {
  }

  // ---------- objects ----------

  predicate FieldOk(name: string, value: Json, bodyLimit: nat) {
    if name != "body" && name !in STRING_LIMITS then true
    else
      var limit := if name == "body" then bodyLimit else STRING_LIMITS[name];
      (value.Null? && name in NULLABLE) || (value.Str? && |value.s| <= limit)
  }

  predicate ValuesOk(value: Json) {
    value.List? && |value.items| <= 100 && forall i :: 0 <= i < |value.items| ==> value.items[i].Str? && |value.items[i].s| <= 256
  }

  predicate FieldsOk(fields: map<string, Json>, bodyLimit: nat) {
    && (forall name :: name in fields ==> FieldOk(name, fields[name], bodyLimit))
    && ("can_edit" in fields ==> fields["can_edit"].Bool?)
    && ("values" in fields ==> ValuesOk(fields["values"]))
  }

  predicate HasSsn(fields: map<string, Json>) {
    "ssn" in fields && fields["ssn"].Str? && fields["ssn"].s != ""
  }

  /** None is a bad request. */
  function Validate(data: Json, bodyLimit: nat, backup: bool): Option<map<string, Json>>
    decreases !backup
  {
    if !data.Object? || !FieldsOk(data.fields, bodyLimit) then None
    else if "backup" in data.fields && backup then None
    else
      var inner := if "backup" in data.fields then Validate(data.fields["backup"], bodyLimit, true) else Some(map[]);
      if inner.None? then None
      else
        var fields := if "backup" in data.fields then data.fields["backup" := Object(inner.value)] else data.fields;
        if !HasSsn(fields) then Some(fields)
        else if !SsnShape(fields["ssn"].s) then None
        else Some(fields["ssn" := Str(NormalSsn(fields["ssn"].s))])
  }

  method ValidateObject(data: Json, bodyLimit: nat, backup: bool) returns (r: Option<map<string, Json>>)
    ensures r == Validate(data, bodyLimit, backup)
    decreases !backup
  {
    if !data.Object? {
      return None;
    }
    var fields := data.fields;
    var rest := fields.Keys;
    while rest != {}
      invariant rest <= fields.Keys
      invariant forall name :: name in fields.Keys - rest ==> FieldOk(name, fields[name], bodyLimit)
      decreases |rest|
    {
      var name :| name in rest;
      rest := rest - {name};
      if name == "body" || name in STRING_LIMITS {
        var limit := if name == "body" then bodyLimit else STRING_LIMITS[name];
        if !(fields[name].Null? && name in NULLABLE) {
          if !fields[name].Str? || |fields[name].s| > limit {
            return None;
          }
        }
      }
    }
    if "can_edit" in fields && !fields["can_edit"].Bool? {
      return None;
    }
    if "values" in fields {
      if !fields["values"].List? || |fields["values"].items| > 100 {
        return None;
      }
      var values := fields["values"].items;
      for i := 0 to |values|
        invariant forall j :: 0 <= j < i ==> values[j].Str? && |values[j].s| <= 256
      {
        if !values[i].Str? || |values[i].s| > 256 {
          return None;
        }
      }
    }
    if "backup" in fields {
      if backup {
        return None;
      }
      var inner := ValidateObject(fields["backup"], bodyLimit, true);
      if inner.None? {
        return None;
      }
      fields := fields["backup" := Object(inner.value)];
    }
    if "ssn" in fields && fields["ssn"].Str? && fields["ssn"].s != "" {
      if !SsnShape(fields["ssn"].s) {
        return None;
      }
      fields := fields["ssn" := Str(NormalSsn(fields["ssn"].s))];
    }
    return Some(fields);
  }

  lemma RewritableFields(value: Json, ssn: string, bodyLimit: nat)
    ensures FieldOk("backup", value, bodyLimit)
    ensures FieldOk("ssn", Str(ssn), bodyLimit) <==> |ssn| <= 14
  {
  }

  /** Validation rewrites nothing but the resident number, whose digits stay, here and in the backup. */
  lemma OnlySsnIsRewritten(data: Json, bodyLimit: nat, backup: bool)
    requires Validate(data, bodyLimit, backup).Some?
    ensures var fields := Validate(data, bodyLimit, backup).value;
      && fields.Keys == data.fields.Keys
      && (forall name :: name in fields && name != "ssn" && name != "backup" ==> fields[name] == data.fields[name])
      && (HasSsn(data.fields) <==> HasSsn(fields))
      && (HasSsn(fields) ==>
            SsnShape(data.fields["ssn"].s) && fields["ssn"].s == NormalSsn(data.fields["ssn"].s))
      && (!HasSsn(fields) && "ssn" in fields ==> fields["ssn"] == data.fields["ssn"])
      && ("backup" in fields ==>
            && !backup && fields["backup"].Object?
            && Validate(data.fields["backup"], bodyLimit, true) == Some(fields["backup"].fields))
  {
    hide FieldsOk, SsnShape, NormalSsn;
    if HasSsn(data.fields) {
      NormalDigits(data.fields["ssn"].s);
    }
  }

  /** Validating twice is validating once. */
  lemma ValidateTwice(data: Json, bodyLimit: nat, backup: bool)
    requires Validate(data, bodyLimit, backup).Some?
    ensures Validate(Object(Validate(data, bodyLimit, backup).value), bodyLimit, backup) == Validate(data, bodyLimit, backup)
    decreases !backup
  {
    hide SsnShape, NormalSsn, FieldOk, ValuesOk;
    OnlySsnIsRewritten(data, bodyLimit, backup);
    var fields := Validate(data, bodyLimit, backup).value;
    if "backup" in fields {
      ValidateTwice(data.fields["backup"], bodyLimit, true);
      RewritableFields(fields["backup"], "", bodyLimit);
      assert fields["backup" := fields["backup"]] == fields;
    }
    if HasSsn(fields) {
      var ssn := data.fields["ssn"].s;
      NormalFormIsCanonical(ssn, ssn);
      NormalDigits(ssn);
      RewritableFields(Null, NormalSsn(ssn), bodyLimit);
      assert fields["ssn" := fields["ssn"]] == fields;
    }
    assert forall name :: name in fields ==> FieldOk(name, data.fields[name], bodyLimit);
  }
}
