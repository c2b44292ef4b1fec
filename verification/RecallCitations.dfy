/** What a citation says about its entity, read off the members of the object that shows it. */
module RecallCitations {
  import opened Prelude
  import opened EntityIds
  import opened RecallTrace

  // ---- Members ----

  predicate FirstAt(members: seq<Field>, key: string, i: nat) {
    i < |members| && members[i].key == key && forall j :: 0 <= j < i ==> members[j].key != key
  }

  /** The first member of that key, or none has it. */
  ghost predicate IsValueOf(value: Option<Json>, members: seq<Field>, key: string) {
    match value
    case None => forall i :: 0 <= i < |members| ==> members[i].key != key
    case Some(v) => exists i: nat :: FirstAt(members, key, i) && members[i].value == v
  }

  lemma {:induction false} GetIsValue(members: seq<Field>, key: string)
    ensures IsValueOf(Get(members, key), members, key)
  {
    if members == [] {
    } else if members[0].key == key {
      assert FirstAt(members, key, 0);
    } else {
      GetIsValue(members[1..], key);
      if Get(members, key).Some? {
        var i: nat :| FirstAt(members[1..], key, i) && members[1..][i].value == Get(members, key).value;
        assert FirstAt(members, key, i + 1);
      }
    }
  }

  lemma GetIff(members: seq<Field>, key: string, value: Option<Json>)
    ensures value == Get(members, key) <==> IsValueOf(value, members, key)
  {
    GetIsValue(members, key);
    if IsValueOf(value, members, key) && value.Some? {
      var i: nat :| FirstAt(members, key, i) && members[i].value == value.value;
      if Get(members, key).Some? {
        var j: nat :| FirstAt(members, key, j) && members[j].value == Get(members, key).value;
        assert i == j;
      }
    }
  }

  // ---- Citations ----

  /** The object has this value under its metadata. */
  predicate HasMetadata(members: seq<Field>, key: string, value: Json) {
    var metadata := Get(members, "metadata");
    metadata.Some? && metadata.value.Object? && Get(metadata.value.members, key) == Some(value)
  }

  predicate FirstTextAt(items: seq<Json>, text: string, i: nat) {
    i < |items| && items[i] == String(text) && forall j :: 0 <= j < i ==> !items[j].String?
  }

  lemma {:induction false} FirstTextIff(items: seq<Json>, text: string)
    ensures FirstText(items) == Some(text) <==> exists i: nat :: FirstTextAt(items, text, i)
  {
    if items == [] {
    } else if items[0].String? {
      if i: nat :| FirstTextAt(items, text, i) { assert i == 0; }
      assert items[0].text == text ==> FirstTextAt(items, text, 0);
    } else {
      FirstTextIff(items[1..], text);
      if i: nat :| FirstTextAt(items[1..], text, i) { assert FirstTextAt(items, text, i + 1); }
      if i: nat :| FirstTextAt(items, text, i) { assert FirstTextAt(items[1..], text, i - 1); }
    }
  }

  /** The source is a text, or a list whose first text it is. */
  ghost predicate HasSource(members: seq<Field>, text: string) {
    || HasMetadata(members, "source", String(text))
    || exists items: seq<Json>, i: nat :: HasMetadata(members, "source", Array(items)) && FirstTextAt(items, text, i)
  }

  /** A citation carries the name, the confidence, the first source and the time of its object, each when it has the
      form it should have and only then, and the object's own type. */
  lemma CitationSays(v: Visit)
    ensures var c := CitationOf(v);
            && c.entity == v.id
            && (forall text :: c.name == Some(text) <==> Get(v.members, "name") == Some(String(text)))
            && (forall number :: c.confidence == Some(number) <==> HasMetadata(v.members, "confidence", Number(number)))
            && (forall text :: c.source == Some(text) <==> HasSource(v.members, text))
            && (forall text :: c.createdAt == Some(text) <==> HasMetadata(v.members, "created_at", String(text)))
            && (forall text :: Get(v.members, "type") == Some(String(text)) ==> c.kind == Some(text))
  {
    forall text ensures CitationOf(v).source == Some(text) <==> HasSource(v.members, text) { SourceIff(v, text); }
  }

  lemma SourceIff(v: Visit, text: string)
    ensures CitationOf(v).source == Some(text) <==> HasSource(v.members, text)
  {
    var source := Member(Get(v.members, "metadata"), "source");
    if source.Some? && source.value.Array? {
      FirstTextIff(source.value.items, text);
      if i: nat :| FirstTextAt(source.value.items, text, i) {
        assert HasMetadata(v.members, "source", Array(source.value.items)) && FirstTextAt(source.value.items, text, i);
      }
    }
  }

  /** A concept is cited without a kind exactly when it has no type of its own. */
  lemma ConceptKindIff(v: Visit)
    requires IsConceptId(v.id)
    ensures CitationOf(v).kind == None <==> !(Get(v.members, "type").Some? && Get(v.members, "type").value.String?)
  {
  }
}
