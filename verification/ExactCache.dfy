// The cache key of src/cache/exact.rs. SHA-256 is taken to be free of collisions, so
// a key is identified with the text that is hashed.

module ExactCache {
  import opened Basics

  const SEPARATOR: char := '\0'

  // Only temperatures above zero are refused; a negative one is cacheable.
  function ComputeKey(model: string, payload: string, temperature: real): Option<string> {
    if temperature > 0.0 then None else Some(model + [SEPARATOR] + payload)
  }

  // A JSON text escapes every control character (section 7 of RFC 8259), so it never
  // contains the separator; a model name may.
  predicate IsJsonText(payload: string) {
    SEPARATOR !in payload
  }

  // A request has a key exactly if its temperature is not above zero, and then the key is
  // model and payload with a NUL in between.
  lemma KeyExactly(model: string, payload: string, temperature: real)
    ensures temperature <= 0.0 ==> ComputeKey(model, payload, temperature) == Some(model + "\0" + payload)
    ensures temperature > 0.0 ==> ComputeKey(model, payload, temperature) == None
  {
    assert "\0" == [SEPARATOR];
  }

  // Where the last separator is, or -1.
  function LastSeparator(text: string): int {
    if text == "" then -1
    else if text[|text| - 1] == SEPARATOR then |text| - 1
    else LastSeparator(text[..|text| - 1])
  }

  lemma {:induction false} SeparatorAfterModel(model: string, payload: string)
    requires IsJsonText(payload)
    ensures LastSeparator(model + [SEPARATOR] + payload) == |model|
  {
    var text := model + [SEPARATOR] + payload;
    if payload != "" {
      var shorter := payload[..|payload| - 1];
      assert text[..|text| - 1] == model + [SEPARATOR] + shorter;
      SeparatorAfterModel(model, shorter);
    }
  }

  // The last separator splits the hashed text, so the key determines both parts.
  lemma KeyInjective(m1: string, p1: string, m2: string, p2: string)
    requires '\0' !in p1 && '\0' !in p2
    requires m1 + "\0" + p1 == m2 + "\0" + p2
    ensures m1 == m2 && p1 == p2
  {
    assert "\0" == [SEPARATOR];
    SeparatorAfterModel(m1, p1);
    SeparatorAfterModel(m2, p2);
    var text := m1 + [SEPARATOR] + p1;
    assert m1 == text[..|m1|] && m2 == text[..|m2|];
    assert p1 == text[|m1| + 1..] && p2 == text[|m2| + 1..];
  }

  // Without the escaping two different requests could share a key.
  lemma RawSeparatorWouldCollide()
    ensures ComputeKey("a", "\0b", 0.0) == ComputeKey("a\0", "b", 0.0) == Some("a\0\0b")
  {
    assert "a" + [SEPARATOR] + "\0b" == "a\0" + [SEPARATOR] + "b" == "a\0\0b";
  }
}
