/**
 The session projection in a checkpoint and the session restored from it
 (mc/agent_shim_adopt.py): exactly which values come back unchanged.
 */
module Projection {
  import opened Wrappers

  /** A dictionary key that the JSON writer takes. */
  datatype Key = KStr(s: string) | KNum(n: int) | KBool(b: bool) | KNull

  /** A value held by a live session. */
  datatype Value =
    | Null
    | Bool(b: bool)
    | Num(n: int)
    | Str(s: string)
    | List(items: seq<Value>)
    | Tuple(parts: seq<Value>)
    | Dict(fields: map<Key, Value>)
    | Set(elems: set<Value>)

  datatype Json =
    | JNull
    | JBool(b: bool)
    | JNum(n: int)
    | JStr(s: string)
    | JList(items: seq<Json>)
    | JObj(fields: map<string, Json>)

  const SET_TAG := "__mc_set__"

  /** The order a set is written in; the source sorts by representation. */
  ghost function Listed(s: set<Value>): (r: seq<Value>)
    ensures forall v :: v in r <==> v in s
  {
    if s == {} then []
    else
      var v :| v in s;
      [v] + Listed(s - {v})
  }

  function Digits(n: nat): string {
    if n < 10 then ["0123456789"[n]] else Digits(n / 10) + ["0123456789"[n % 10]]
  }

  /** What a key is written as: JSON has only strings. */
  function KeyText(k: Key): string {
    match k
    case KStr(s) => s
    case KNum(n) => if n < 0 then "-" + Digits(-n) else Digits(n)
    case KBool(b) => if b then "true" else "false"
    case KNull => "null"
  }

  predicate Writes(fields: map<Key, Value>, t: string) {
    exists k :: k in fields && KeyText(k) == t
  }

  /** Of the keys written alike, the one whose value is read back. */
  ghost function Winner(fields: map<Key, Value>, t: string): (k: Key)
    requires Writes(fields, t)
    ensures k in fields && KeyText(k) == t
  {
    var k :| k in fields && KeyText(k) == t;
    k
  }

  ghost function Texts(fields: map<Key, Value>): (ts: set<string>)
    ensures forall t :: t in ts <==> Writes(fields, t)
  {
    set k | k in fields :: KeyText(k)
  }

  /** Through JSON: tuples become lists, keys become strings, a set becomes a tagged list. */
  ghost function Encode(v: Value): Json {
    match v
    case Null => JNull
    case Bool(b) => JBool(b)
    case Num(n) => JNum(n)
    case Str(s) => JStr(s)
    case List(items) => JList(seq(|items|, i requires 0 <= i < |items| => Encode(items[i])))
    case Tuple(parts) => JList(seq(|parts|, i requires 0 <= i < |parts| => Encode(parts[i])))
    case Dict(fields) => JObj(map t | t in Texts(fields) :: Encode(fields[Winner(fields, t)]))
    case Set(elems) =>
      var order := Listed(elems);
      JObj(map[SET_TAG := JList(seq(|order|, i requires 0 <= i < |order| && order[i] in elems => Encode(order[i])))])
  }

  predicate Hashable(v: Value) {
    !v.List? && !v.Dict? && !v.Set?
  }

  predicate Tagged(fields: map<string, Json>) {
    fields.Keys == {SET_TAG} && fields[SET_TAG].JList?
  }

  ghost predicate Gathers(r: map<string, Option<Value>>, back: map<Key, Value>) {
    && (forall k :: k in back <==> k.KStr? && k.s in r)
    && (forall t :: t in r ==> r[t] == Some(back[KStr(t)]))
  }

  /** The dictionary of these fields, if there is a value for each. */
  function Gathered(r: map<string, Option<Value>>): (v: Option<Value>)
    ensures v.Some? <==> forall t :: t in r ==> r[t].Some?
    ensures v.Some? ==> v.value.Dict? && Gathers(r, v.value.fields)
  {
    if forall t :: t in r ==> r[t].Some? then Some(Dict(map t | t in r :: KStr(t) := r[t].value)) else None
  }

  /** `_untag`: nothing if it raises, as building a set of unhashable values does. */
  function Untag(j: Json): Option<Value> {
    match j
    case JNull => Some(Null)
    case JBool(b) => Some(Bool(b))
    case JNum(n) => Some(Num(n))
    case JStr(s) => Some(Str(s))
    case JList(items) =>
      var r := seq(|items|, i requires 0 <= i < |items| => Untag(items[i]));
      if forall i :: 0 <= i < |r| ==> r[i].Some?
      then Some(List(seq(|r|, i requires 0 <= i < |r| => r[i].value)))
      else None
    case JObj(fields) =>
      if Tagged(fields) then
        var items := fields[SET_TAG].items;
        var r := seq(|items|, i requires 0 <= i < |items| => Untag(items[i]));
        if forall i :: 0 <= i < |r| ==> r[i].Some? && Hashable(r[i].value)
        then Some(Set(set i | 0 <= i < |r| :: r[i].value))
        else None
      else
        Gathered(map k | k in fields :: Untag(fields[k]))
  }

  predicate Scalar(v: Value) {
    v.Null? || v.Bool? || v.Num? || v.Str?
  }

  predicate LooksTagged(fields: map<Key, Value>) {
    fields.Keys == {KStr(SET_TAG)} && (fields[KStr(SET_TAG)].List? || fields[KStr(SET_TAG)].Tuple?)
  }

  predicate StringKeys(fields: map<Key, Value>) {
    forall k :: k in fields ==> k.KStr?
  }

  /**
   No tuple, no dictionary with a key that is not a string or that is exactly a
   tagged list, no set of anything but scalars, at any depth.
   */
  ghost predicate Faithful(v: Value) {
    match v
    case Null => true
    case Bool(_) => true
    case Num(_) => true
    case Str(_) => true
    case List(items) => forall i :: 0 <= i < |items| ==> Faithful(items[i])
    case Tuple(_) => false
    case Dict(fields) =>
      StringKeys(fields) && !LooksTagged(fields) && forall k :: k in fields ==> Faithful(fields[k])
    case Set(elems) => forall x :: x in elems ==> Scalar(x)
  }

  lemma {:induction false} ScalarReturns(v: Value)
    requires Scalar(v)
    ensures Untag(Encode(v)) == Some(v) && Hashable(v)
  {
  }

  /** What comes back of an element of a set is never the element, unless it is a scalar. */
  lemma {:induction false} SetReturns(elems: set<Value>)
    ensures
      if forall x :: x in elems ==> Scalar(x) then Untag(Encode(Set(elems))) == Some(Set(elems))
      else Untag(Encode(Set(elems))) != Some(Set(elems))
  {
    var order := Listed(elems);
    var j := Encode(Set(elems));
    var items := j.fields[SET_TAG].items;
    assert Tagged(j.fields) && |items| == |order|;
    var r := seq(|items|, i requires 0 <= i < |items| => Untag(items[i]));
    if forall x :: x in elems ==> Scalar(x) {
      forall i | 0 <= i < |order|
        ensures r[i] == Some(order[i]) && Hashable(order[i])
      {
        ScalarReturns(order[i]);
      }
      assert (set i | 0 <= i < |r| :: r[i].value) == elems;
    } else {
      var x :| x in elems && !Scalar(x);
      var k :| 0 <= k < |order| && order[k] == x;
      NonScalarIsUnhashable(x);
      assert items[k] == Encode(x) && r[k] == Untag(Encode(x));
    }
  }

  lemma {:induction false} NonScalarIsUnhashable(x: Value)
    requires !Scalar(x)
    ensures Untag(Encode(x)).Some? ==> !Hashable(Untag(Encode(x)).value)
  {
  }

  lemma {:induction false} ListReturns(items: seq<Value>)
    ensures Untag(Encode(List(items))) == Some(List(items)) <==>
      forall i :: 0 <= i < |items| ==> Untag(Encode(items[i])) == Some(items[i])
  {
    var j := Encode(List(items));
    assert |j.items| == |items| && forall i :: 0 <= i < |items| ==> j.items[i] == Encode(items[i]);
    var r := seq(|j.items|, i requires 0 <= i < |j.items| => Untag(j.items[i]));
    if forall i :: 0 <= i < |items| ==> Untag(Encode(items[i])) == Some(items[i]) {
      assert forall i :: 0 <= i < |r| ==> r[i] == Some(items[i]);
      assert Untag(j).Some? && Untag(j).value.List?;
      assert Untag(j).value.items == items;
    }
  }

  /** A string key is written as itself, so no two of them are written alike. */
  lemma {:induction false} StringKeysStay(fields: map<Key, Value>)
    requires StringKeys(fields)
    ensures forall t :: Writes(fields, t) <==> KStr(t) in fields
    ensures forall t :: t in Texts(fields) ==> Winner(fields, t) == KStr(t)
  {
    forall t | KStr(t) in fields
      ensures Writes(fields, t)
    {
      assert KeyText(KStr(t)) == t;
    }
  }

  lemma {:induction false} EncodedByKey(fields: map<Key, Value>)
    requires StringKeys(fields)
    ensures
      var js := Encode(Dict(fields)).fields;
      forall t :: (t in js <==> KStr(t) in fields) && (t in js ==> js[t] == Encode(fields[KStr(t)]))
  {
    StringKeysStay(fields);
  }

  ghost predicate ComesBackAs(js: map<string, Json>, back: map<Key, Value>) {
    && (forall k :: k in back <==> k.KStr? && k.s in js)
    && (forall t :: t in js ==> Untag(js[t]) == Some(back[KStr(t)]))
  }

  /** An object that is no tagged list comes back field by field, if each field does. */
  lemma {:induction false} FieldByField(js: map<string, Json>)
    requires !Tagged(js)
    ensures Untag(JObj(js)).Some? <==> forall t :: t in js ==> Untag(js[t]).Some?
    ensures Untag(JObj(js)).Some? ==> Untag(JObj(js)).value.Dict? && ComesBackAs(js, Untag(JObj(js)).value.fields)
  {
    var r := map k | k in js :: Untag(js[k]);
    assert Untag(JObj(js)) == Gathered(r);
    assert forall t :: t in r ==> r[t] == Untag(js[t]);
  }

  lemma {:induction false} FieldsReturn(fields: map<Key, Value>, js: map<string, Json>)
    requires StringKeys(fields) && !Tagged(js)
    requires forall t :: t in js <==> KStr(t) in fields
    requires forall k :: k in fields ==> Untag(js[k.s]) == Some(fields[k])
    ensures Untag(JObj(js)) == Some(Dict(fields))
  {
    FieldByField(js);
    forall t | t in js
      ensures Untag(js[t]) == Some(fields[KStr(t)])
    {
      assert KStr(t) in fields;
    }
    assert Untag(JObj(js)).value.fields == fields;
  }

  lemma {:induction false} ReturnedFields(fields: map<Key, Value>, js: map<string, Json>, k: Key)
    requires StringKeys(fields) && !Tagged(js) && k in fields
    requires forall t :: t in js <==> KStr(t) in fields
    requires Untag(JObj(js)) == Some(Dict(fields))
    ensures Untag(js[k.s]) == Some(fields[k])
  {
    FieldByField(js);
    assert KStr(k.s) == k;
  }

  lemma {:induction false} DictReturns(fields: map<Key, Value>)
    requires StringKeys(fields) && !LooksTagged(fields)
    ensures Untag(Encode(Dict(fields))) == Some(Dict(fields)) <==>
      forall k :: k in fields ==> Untag(Encode(fields[k])) == Some(fields[k])
  {
    var js := Encode(Dict(fields)).fields;
    EncodedByKey(fields);
    NotTagged(fields, js);
    forall k | k in fields
      ensures k.s in js && js[k.s] == Encode(fields[k])
    {
      assert KStr(k.s) == k;
    }
    if forall k :: k in fields ==> Untag(Encode(fields[k])) == Some(fields[k]) {
      FieldsReturn(fields, js);
    } else if Untag(JObj(js)) == Some(Dict(fields)) {
      forall k | k in fields
        ensures Untag(js[k.s]) == Some(fields[k])
      {
        ReturnedFields(fields, js, k);
      }
    }
  }

  lemma {:induction false} NotTagged(fields: map<Key, Value>, js: map<string, Json>)
    requires StringKeys(fields) && !LooksTagged(fields)
    requires forall t :: t in js <==> KStr(t) in fields
    requires forall t :: t in js ==> js[t] == Encode(fields[KStr(t)])
    ensures !Tagged(js)
  {
    if js.Keys == {SET_TAG} {
      assert SET_TAG in js;
      assert fields.Keys == {KStr(SET_TAG)} by {
        forall k | k in fields
          ensures k == KStr(SET_TAG)
        {
          assert k.s in js;
        }
      }
    }
  }

  lemma {:induction false} TaggedNeverReturns(fields: map<Key, Value>)
    requires LooksTagged(fields)
    ensures Untag(Encode(Dict(fields))) != Some(Dict(fields))
  {
    var js := Encode(Dict(fields)).fields;
    assert KStr(SET_TAG) in fields;
    EncodedByKey(fields);
    assert js.Keys == {SET_TAG} && js[SET_TAG] == Encode(fields[KStr(SET_TAG)]);
    assert Tagged(js);
  }

  /** What comes back has string keys only. */
  lemma {:induction false} OtherKeysNeverReturn(fields: map<Key, Value>)
    requires !StringKeys(fields)
    ensures Untag(Encode(Dict(fields))) != Some(Dict(fields))
  {
    var js := Encode(Dict(fields)).fields;
    if !Tagged(js) && Untag(JObj(js)).Some? {
      assert forall k :: k in Untag(JObj(js)).value.fields ==> k.KStr?;
    }
  }

  /** A value comes back from the checkpoint unchanged exactly if it is faithful. */
  lemma {:induction false} RoundTripIff(v: Value)
    ensures Untag(Encode(v)) == Some(v) <==> Faithful(v)
    decreases v
  {
    match v
    case Null =>
    case Bool(_) =>
    case Num(_) =>
    case Str(_) =>
    case List(items) =>
      forall i | 0 <= i < |items|
        ensures Untag(Encode(items[i])) == Some(items[i]) <==> Faithful(items[i])
      {
        RoundTripIff(items[i]);
      }
      ListReturns(items);
    case Tuple(_) =>
    case Dict(fields) =>
      if !StringKeys(fields) {
        OtherKeysNeverReturn(fields);
      } else if LooksTagged(fields) {
        TaggedNeverReturns(fields);
      } else {
        forall k | k in fields
          ensures Untag(Encode(fields[k])) == Some(fields[k]) <==> Faithful(fields[k])
        {
          RoundTripIff(fields[k]);
        }
        DictReturns(fields);
      }
    case Set(elems) => SetReturns(elems);
  }

  /** A key comes back as the string it is written as. */
  lemma {:induction false} KeyReturnsAsText(k: Key, n: int)
    requires KeyText(k) != SET_TAG
    ensures Untag(Encode(Dict(map[k := Num(n)]))) == Some(Dict(map[KStr(KeyText(k)) := Num(n)]))
  {
    var fields, text := map[k := Num(n)], KeyText(k);
    var js := Encode(Dict(fields)).fields;
    assert k in fields && Writes(fields, text);
    assert forall t :: t in js <==> t == text;
    assert fields[Winner(fields, text)] == Num(n);
    assert js[text] == Encode(Num(n)) == JNum(n);
    FieldsReturn(map[KStr(text) := Num(n)], js);
  }

  /** And that is JSON's own word for the three that are neither strings nor numbers. */
  lemma {:induction false} OtherKeyTexts()
    ensures KeyText(KBool(true)) == "true" && KeyText(KBool(false)) == "false" && KeyText(KNull) == "null"
    ensures KeyText(KBool(true)) != SET_TAG && KeyText(KBool(false)) != SET_TAG && KeyText(KNull) != SET_TAG
  {
    assert |KeyText(KBool(true))| == 4 && |KeyText(KBool(false))| == 5 && |KeyText(KNull)| == 4 && |SET_TAG| == 10;
  }

  // ----- the session ---------------------------------------------------------------------------

  /** An entry of the session: a value, or a live object (a callable, anything JSON does not take). */
  datatype Item = Plain(v: Value) | Live

  /** `ts` is kept beside the lines, with nothing where no time is known, and may be missing altogether. */
  datatype Session = Session(entries: map<string, Item>, lines: seq<string>, ts: seq<Option<int>>)

  datatype Projected = Projected(
    fields: map<string, Json>,
    lines: seq<string>,
    ts: seq<Option<int>>,
    dropped: nat,
    skipped: set<string>)

  /** Live objects by name, and what is carried apart. */
  const DENY := {
    "proc", "stdin_lock", "log_lines", "thread", "reader_thread", "_reader_thread", "_adopt_skip_drain",
    "_adopt_proc_cost", "_adopt_proc_turns"}

  predicate Carried(s: Session, k: string) {
    k in s.entries && k !in DENY && s.entries[k].Plain?
  }

  function LastLines<T>(s: seq<T>, n: nat): seq<T> {
    if |s| > n then s[|s| - n..] else s
  }

  /** `project_session`, keeping the last `n` log lines. */
  ghost function Project(s: Session, n: nat): Projected {
    var kept := LastLines(s.lines, n);
    var stamps :=
      if |s.ts| == |s.lines| && kept != []
      then seq(|kept|, i requires 0 <= i < |kept| && |kept| <= |s.ts| => s.ts[|s.ts| - |kept| + i])
      else seq(|kept|, i => None);
    Projected(
      map k | k in s.entries && Carried(s, k) :: Encode(s.entries[k].v),
      kept, stamps, |s.lines| - |kept|,
      set k | k in s.entries && k !in DENY && s.entries[k].Live?)
  }

  /** The dictionary part of `restore_session`; `_skipped` is the projection's own key. */
  function Restored(p: Projected): Option<map<string, Value>> {
    var r := map k | k in p.fields && k != "_skipped" :: Untag(p.fields[k]);
    if forall k :: k in r ==> r[k].Some? then Some(map k | k in r :: r[k].value) else None
  }

  predicate Returned(s: Session, fields: map<string, Value>) {
    && (forall k :: k in fields ==> Carried(s, k) && k != "_skipped" && fields[k] == s.entries[k].v)
    && (forall k :: k in s.entries && Carried(s, k) && k != "_skipped" ==> k in fields)
  }

  /** The log of `restore_session`: lines, and a time for each; the present one where the times do not fit. */
  function RestoredLog(p: Projected, now: int): (seq<string>, seq<Option<int>>) {
    (p.lines, if |p.ts| == |p.lines| then p.ts else seq(|p.lines|, i => Some(now)))
  }

  ghost predicate AllFaithful(s: Session) {
    forall k :: k in s.entries && Carried(s, k) && k != "_skipped" ==> Faithful(s.entries[k].v)
  }

  lemma {:induction false} FieldReturnsIff(s: Session, n: nat, k: string)
    requires k in s.entries && Carried(s, k)
    ensures
      var p := Project(s, n);
      k in p.fields && (Untag(p.fields[k]) == Some(s.entries[k].v) <==> Faithful(s.entries[k].v))
  {
    RoundTripIff(s.entries[k].v);
  }

  lemma {:induction false} FaithfulReturn(s: Session, n: nat)
    requires AllFaithful(s)
    ensures Restored(Project(s, n)).Some? && Returned(s, Restored(Project(s, n)).value)
  {
    var p := Project(s, n);
    forall k | k in p.fields && k != "_skipped"
      ensures Untag(p.fields[k]) == Some(s.entries[k].v)
    {
      FieldReturnsIff(s, n, k);
    }
    var r := map k | k in p.fields && k != "_skipped" :: Untag(p.fields[k]);
    assert Restored(p) == Some(map k | k in r :: r[k].value);
  }

  lemma {:induction false} ReturnedAreFaithful(s: Session, n: nat)
    requires Restored(Project(s, n)).Some? && Returned(s, Restored(Project(s, n)).value)
    ensures AllFaithful(s)
  {
    var p := Project(s, n);
    forall k | k in s.entries && Carried(s, k) && k != "_skipped"
      ensures Faithful(s.entries[k].v)
    {
      FieldReturnsIff(s, n, k);
      assert k in Restored(p).value;
    }
  }

  /**
   Every value of the session comes back, under its own name and unchanged, exactly
   if all those carried are faithful; what is not carried is named.
   */
  lemma {:induction false} SessionReturnsIff(s: Session, n: nat)
    ensures
      var p := Project(s, n);
      && (Restored(p).Some? && Returned(s, Restored(p).value) <==> AllFaithful(s))
      && (forall k :: k in s.entries && k !in DENY ==> (k in p.skipped <==> k !in p.fields))
      && (forall k :: k in DENY || k !in s.entries ==> k !in p.fields && k !in p.skipped)
  {
    if AllFaithful(s) {
      FaithfulReturn(s, n);
    } else if Restored(Project(s, n)).Some? && Returned(s, Restored(Project(s, n)).value) {
      ReturnedAreFaithful(s, n);
    }
  }

  lemma {:induction false} TailKeeps(s: Session, n: nat)
    ensures
      var p := Project(s, n);
      && |p.lines| == (if |s.lines| < n then |s.lines| else n) && p.dropped + |p.lines| == |s.lines|
      && (forall i :: 0 <= i < |p.lines| ==> p.lines[i] == s.lines[p.dropped + i])
  {
  }

  lemma {:induction false} TailKeepsTimes(s: Session, n: nat)
    ensures
      var p := Project(s, n);
      && |p.ts| == |p.lines| && p.dropped + |p.ts| == |s.lines|
      && (forall i :: 0 <= i < |p.ts| ==> p.ts[i] == if |s.ts| == |s.lines| then s.ts[p.dropped + i] else None)
  {
    var kept := LastLines(s.lines, n);
    if |s.ts| == |s.lines| && kept != [] {
      assert |kept| <= |s.ts|;
    }
  }

  /** Each line has one time: its own if the times fit, or else the present one. */
  lemma {:induction false} TimesFit(p: Projected, now: int)
    ensures
      var (lines, ts) := RestoredLog(p, now);
      && lines == p.lines && |ts| == |lines|
      && (forall i :: 0 <= i < |ts| ==> ts[i] == if |p.ts| == |p.lines| then p.ts[i] else Some(now))
  {
  }

  /** Of the log exactly the last `n` lines come back, with their own times if those were kept; the rest are counted. */
  lemma {:induction false} LogTailReturns(s: Session, n: nat, now: int)
    ensures
      var p := Project(s, n);
      var (lines, ts) := RestoredLog(p, now);
      && |lines| == (if |s.lines| < n then |s.lines| else n)
      && |ts| == |lines| && p.dropped + |lines| == |s.lines|
      && (forall i :: 0 <= i < |lines| ==> lines[i] == s.lines[p.dropped + i])
      && (forall i :: 0 <= i < |ts| ==> ts[i] == if |s.ts| == |s.lines| then s.ts[p.dropped + i] else None)
  {
    TailKeeps(s, n);
    TailKeepsTimes(s, n);
    assert RestoredLog(Project(s, n), now) == (Project(s, n).lines, Project(s, n).ts);
  }
}
