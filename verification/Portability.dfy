/** Where the port's text is the service's: which strings, keys and numbers the two runtimes print alike. */
module Portability {
  import opened Numbers
  import opened Json

  // ----- strings --------------------------------------------------------------------------------------------------

  /** Up to tilde, or a surrogate without its other half. */
  predicate PlainUnit(s: Text, i: nat)
    requires i < |s|
  {
    s[i] <= 126 || ((High(s[i]) || Low(s[i])) && !Paired(s, i))
  }

  predicate PlainText(s: Text) {
    forall i | 0 <= i < |s| :: PlainUnit(s, i)
  }

  predicate PlainFrom(s: Text, i: nat)
    requires i <= |s|
  {
    forall k | i <= k < |s| :: PlainUnit(s, k)
  }

  /** The service's text is the longer one, and as long only where it is the same. */
  ghost predicate Longer(plain: bool, a: Text, b: Text) {
    |a| >= |b| && (plain ==> a == b) && (!plain ==> |a| > |b|)
  }

  lemma EscapeLonger(js: Js, s: Text, i: nat)
    requires i < |s|
    ensures Longer(PlainUnit(s, i), Escape(Python, s, i), Escape(js, s, i))
  {
    hide Paired, UnicodeEscape;
  }

  lemma {:induction false} EscapedLonger(js: Js, s: Text, i: nat)
    requires i <= |s|
    ensures Longer(PlainFrom(s, i), Escaped(Python, s, i), Escaped(js, s, i))
    decreases |s| - i
  {
    hide Escape, PlainUnit;
    if i < |s| {
      EscapedLonger(js, s, i + 1);
      EscapeLonger(js, s, i);
      assert PlainFrom(s, i) <==> PlainUnit(s, i) && PlainFrom(s, i + 1);
    }
  }

  lemma TextAgrees(js: Js, s: Text)
    ensures Quoted(Python, s) == Quoted(js, s) <==> PlainText(s)
  {
    EscapedLonger(js, s, 0);
  }

  // ----- values ---------------------------------------------------------------------------------------------------

  /** Every string and key is plain. */
  predicate PlainStrings(v: Json) {
    match v
    case Str(s) => PlainText(s)
    case Arr(items) => PlainItems(items)
    case Obj(fields) => PlainFields(fields)
    case _ => true
  }

  predicate PlainItems(items: Items) {
    items.Cons? ==> PlainStrings(items.head) && PlainItems(items.tail)
  }

  predicate PlainFields(fields: Fields) {
    fields.Field? ==> PlainText(fields.key) && PlainStrings(fields.value) && PlainFields(fields.rest)
  }

  /** Every string and key is plain and every number prints alike where it stands. */
  predicate Portable(js: Js, v: Json, float: bool) {
    match v
    case Num(x) => PortableNumber(js, x, float)
    case Str(s) => PlainText(s)
    case Arr(items) => PortableItems(js, items, float)
    case Obj(fields) => PortableFields(js, fields, float)
    case _ => true
  }

  predicate PortableItems(js: Js, items: Items, float: bool) {
    items.Cons? ==> Portable(js, items.head, float) && PortableItems(js, items.tail, float)
  }

  predicate PortableFields(js: Js, fields: Fields, float: bool) {
    fields.Field? ==>
      && PlainText(fields.key)
      && Portable(js, fields.value, float || FloatField(fields.key))
      && PortableFields(js, fields.rest, float)
  }

  lemma {:induction false} PortableAlike(js: Js, v: Json, float: bool)
    ensures Alike(Python, js, v, v, float) <==> Portable(js, v, float)
  {
    hide Quoted, PlainText, NumberText, PortableNumber;
    match v {
      case Num(x) => NumberAgrees(js, x, float);
      case Str(s) => TextAgrees(js, s);
      case Arr(items) => PortableItemsAlike(js, items, float);
      case Obj(fields) => PortableFieldsAlike(js, fields, float);
      case _ =>
    }
  }

  lemma {:induction false} PortableItemsAlike(js: Js, items: Items, float: bool)
    ensures AlikeItems(Python, js, items, items, float) <==> PortableItems(js, items, float)
  {
    hide Alike, Portable;
    if items.Cons? {
      PortableAlike(js, items.head, float);
      PortableItemsAlike(js, items.tail, float);
    }
  }

  lemma {:induction false} PortableFieldsAlike(js: Js, fields: Fields, float: bool)
    ensures AlikeFields(Python, js, fields, fields, float) <==> PortableFields(js, fields, float)
  {
    hide Alike, Portable, Quoted, PlainText, FloatField;
    if fields.Field? {
      TextAgrees(js, fields.key);
      PortableAlike(js, fields.value, float || FloatField(fields.key));
      PortableFieldsAlike(js, fields.rest, float);
    }
  }

  lemma {:induction false} AlikePlain(js: Js, v: Json, w: Json, float: bool)
    requires Alike(Python, js, v, w, float)
    ensures PlainStrings(v)
    decreases v
  {
    hide Quoted, PlainText, NumberText;
    match v {
      case Str(s) => TextAgrees(js, s);
      case Arr(items) => AlikeItemsPlain(js, items, w.items, float);
      case Obj(fields) => AlikeFieldsPlain(js, fields, w.fields, float);
      case _ =>
    }
  }

  lemma {:induction false} AlikeItemsPlain(js: Js, a: Items, b: Items, float: bool)
    requires AlikeItems(Python, js, a, b, float)
    ensures PlainItems(a)
    decreases a
  {
    hide Alike, PlainStrings;
    if a.Cons? {
      AlikePlain(js, a.head, b.head, float);
      AlikeItemsPlain(js, a.tail, b.tail, float);
    }
  }

  lemma {:induction false} AlikeFieldsPlain(js: Js, a: Fields, b: Fields, float: bool)
    requires AlikeFields(Python, js, a, b, float)
    ensures PlainFields(a)
    decreases a
  {
    hide Alike, PlainStrings, Quoted, PlainText, FloatField;
    if a.Field? {
      TextAgrees(js, a.key);
      AlikePlain(js, a.value, b.value, float || FloatField(a.key));
      AlikeFieldsPlain(js, a.rest, b.rest, float);
    }
  }

  // ----- sorting plain keys ---------------------------------------------------------------------------------------

  /** Without a surrogate pair the code points are the units. */
  lemma {:induction false} PlainPoints(s: Text)
    requires forall i | 0 <= i < |s| :: !(High(s[i]) && i + 1 < |s| && Low(s[i + 1]))
    ensures Points(s) == s
  {
    if s != [] {
      assert !(High(s[0]) && 1 < |s| && Low(s[1]));
      forall i | 0 <= i < |s[1..]| ensures !(High(s[1..][i]) && i + 1 < |s[1..]| && Low(s[1..][i + 1])) {
        assert s[1..][i] == s[i + 1];
      }
      PlainPoints(s[1..]);
      assert s == [s[0]] + s[1..];
    }
  }

  lemma PlainOrder(js: Js, a: Text, b: Text)
    requires PlainText(a) && PlainText(b)
    ensures KeyBefore(Python, a, b) <==> KeyBefore(js, a, b)
  {
    PlainUnpaired(a);
    PlainUnpaired(b);
    PlainPoints(a);
    PlainPoints(b);
  }

  lemma PlainUnpaired(s: Text)
    requires PlainText(s)
    ensures forall i | 0 <= i < |s| :: !(High(s[i]) && i + 1 < |s| && Low(s[i + 1]))
  {
    forall i | 0 <= i < |s| ensures !(High(s[i]) && i + 1 < |s| && Low(s[i + 1])) {
      assert PlainUnit(s, i);
    }
  }

  lemma {:induction false} InsertPlain(rt: Runtime, key: Text, value: Json, fields: Fields)
    ensures PlainFields(InsertField(rt, key, value, fields))
       <==> PlainText(key) && PlainStrings(value) && PlainFields(fields)
    decreases fields
  {
    hide PlainText, PlainStrings;
    if fields.Field? && !KeyBefore(rt, key, fields.key) {
      InsertPlain(rt, key, value, fields.rest);
    }
  }

  lemma {:induction false} CanonPlain(rt: Runtime, v: Json)
    ensures PlainStrings(Canon(rt, v)) <==> PlainStrings(v)
    decreases v
  {
    match v {
      case Arr(items) => CanonItemsPlain(rt, items);
      case Obj(fields) => CanonFieldsPlain(rt, fields);
      case _ =>
    }
  }

  lemma {:induction false} CanonItemsPlain(rt: Runtime, items: Items)
    ensures PlainItems(CanonItems(rt, items)) <==> PlainItems(items)
    decreases items
  {
    hide Canon, PlainStrings;
    if items.Cons? {
      CanonPlain(rt, items.head);
      CanonItemsPlain(rt, items.tail);
    }
  }

  lemma {:induction false} CanonFieldsPlain(rt: Runtime, fields: Fields)
    ensures PlainFields(CanonFields(rt, fields)) <==> PlainFields(fields)
    decreases fields
  {
    hide PlainText, Canon, PlainStrings;
    if fields.Field? {
      CanonPlain(rt, fields.value);
      CanonFieldsPlain(rt, fields.rest);
      InsertPlain(rt, fields.key, Canon(rt, fields.value), CanonFields(rt, fields.rest));
    }
  }

  lemma {:induction false} SameInsert(js: Js, key: Text, value: Json, fields: Fields)
    requires PlainText(key) && PlainFields(fields)
    ensures InsertField(Python, key, value, fields) == InsertField(js, key, value, fields)
    decreases fields
  {
    hide PlainText, KeyBefore, PlainStrings;
    if fields.Field? {
      PlainOrder(js, key, fields.key);
      SameInsert(js, key, value, fields.rest);
    }
  }

  /** Plain keys sort alike on the two runtimes. */
  lemma {:induction false} SameCanon(js: Js, v: Json)
    requires PlainStrings(v)
    ensures Canon(Python, v) == Canon(js, v)
    decreases v
  {
    match v {
      case Arr(items) => SameCanonItems(js, items);
      case Obj(fields) => SameCanonFields(js, fields);
      case _ =>
    }
  }

  lemma {:induction false} SameCanonItems(js: Js, items: Items)
    requires PlainItems(items)
    ensures CanonItems(Python, items) == CanonItems(js, items)
    decreases items
  {
    hide Canon, PlainStrings;
    if items.Cons? {
      SameCanon(js, items.head);
      SameCanonItems(js, items.tail);
    }
  }

  lemma {:induction false} SameCanonFields(js: Js, fields: Fields)
    requires PlainFields(fields)
    ensures CanonFields(Python, fields) == CanonFields(js, fields)
    decreases fields
  {
    hide PlainText, Canon, PlainStrings, InsertField;
    if fields.Field? {
      SameCanon(js, fields.value);
      SameCanonFields(js, fields.rest);
      CanonFieldsPlain(js, fields.rest);
      SameInsert(js, fields.key, Canon(js, fields.value), CanonFields(js, fields.rest));
    }
  }

  lemma {:induction false} InsertPortable(js: Js, rt: Runtime, key: Text, value: Json, fields: Fields, float: bool)
    ensures PortableFields(js, InsertField(rt, key, value, fields), float)
       <==> PlainText(key) && Portable(js, value, float || FloatField(key)) && PortableFields(js, fields, float)
    decreases fields
  {
    hide PlainText, Portable, FloatField;
    if fields.Field? && !KeyBefore(rt, key, fields.key) {
      InsertPortable(js, rt, key, value, fields.rest, float);
    }
  }

  lemma {:induction false} CanonPortable(js: Js, rt: Runtime, v: Json, float: bool)
    ensures Portable(js, Canon(rt, v), float) <==> Portable(js, v, float)
    decreases v
  {
    hide PlainText, PortableNumber;
    match v {
      case Arr(items) => CanonItemsPortable(js, rt, items, float);
      case Obj(fields) => CanonFieldsPortable(js, rt, fields, float);
      case _ =>
    }
  }

  lemma {:induction false} CanonItemsPortable(js: Js, rt: Runtime, items: Items, float: bool)
    ensures PortableItems(js, CanonItems(rt, items), float) <==> PortableItems(js, items, float)
    decreases items
  {
    hide Canon, Portable;
    if items.Cons? {
      CanonPortable(js, rt, items.head, float);
      CanonItemsPortable(js, rt, items.tail, float);
    }
  }

  lemma {:induction false} CanonFieldsPortable(js: Js, rt: Runtime, fields: Fields, float: bool)
    ensures PortableFields(js, CanonFields(rt, fields), float) <==> PortableFields(js, fields, float)
    decreases fields
  {
    hide PlainText, Canon, Portable, FloatField;
    if fields.Field? {
      CanonPortable(js, rt, fields.value, float || FloatField(fields.key));
      CanonFieldsPortable(js, rt, fields.rest, float);
      InsertPortable(js, rt, fields.key, Canon(rt, fields.value), CanonFields(rt, fields.rest), float);
    }
  }

  lemma {:induction false} PortablePlain(js: Js, v: Json, float: bool)
    requires Portable(js, v, float)
    ensures PlainStrings(v)
    decreases v
  {
    hide PlainText;
    match v {
      case Arr(items) => PortableItemsPlain(js, items, float);
      case Obj(fields) => PortableFieldsPlain(js, fields, float);
      case _ =>
    }
  }

  lemma {:induction false} PortableItemsPlain(js: Js, items: Items, float: bool)
    requires PortableItems(js, items, float)
    ensures PlainItems(items)
    decreases items
  {
    hide Portable, PlainStrings;
    if items.Cons? {
      PortablePlain(js, items.head, float);
      PortableItemsPlain(js, items.tail, float);
    }
  }

  lemma {:induction false} PortableFieldsPlain(js: Js, fields: Fields, float: bool)
    requires PortableFields(js, fields, float)
    ensures PlainFields(fields)
    decreases fields
  {
    hide Portable, PlainStrings, PlainText, FloatField;
    if fields.Field? {
      PortablePlain(js, fields.value, float || FloatField(fields.key));
      PortableFieldsPlain(js, fields.rest, float);
    }
  }

  // ----- the two texts --------------------------------------------------------------------------------------------

  /** A text both runtimes print holds plain strings only. */
  lemma TextsPlain(js: Js, v: Json, w: Json, float: bool)
    requires Stringify(Python, v, float) == Stringify(js, w, float)
    ensures PlainStrings(v)
  {
    hide Stringify, Canon, Alike, PlainStrings;
    TextsEqual(Python, js, v, w, float);
    AlikePlain(js, Canon(Python, v), Canon(js, w), float);
    CanonPlain(Python, v);
  }

  /** The port's text is the service's exactly for portable values. */
  lemma PortAgrees(js: Js, v: Json, float: bool)
    ensures Stringify(Python, v, float) == Stringify(js, v, float) <==> Portable(js, v, float)
  {
    hide Stringify, Canon, Portable, Alike, PlainStrings;
    var c, d := Canon(Python, v), Canon(js, v);
    TextsEqual(Python, js, v, v, float);
    PortableAlike(js, c, float);
    CanonPortable(js, Python, v, float);
    if Stringify(Python, v, float) == Stringify(js, v, float) {
      TextsPlain(js, v, v, float);
      SameCanon(js, v);
    }
    if Portable(js, v, float) {
      PortablePlain(js, v, float);
      SameCanon(js, v);
    }
  }
}
