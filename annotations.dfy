/** The CoreNLP `Annotation` the remote client fills: a typed map from annotation keys
    (Java classes) to values. Only the two keys the core names are distinguished. */
module Annotations {
  import opened Exceptions

  datatype Key = TextAnnotation | ExceptionAnnotation | OtherKey(name: string)

  /** A value stored under a key: the document text, a throwable (the exception
      marker), or any other annotation value, which the core only copies. */
  datatype Value = TextValue(text: string) | ThrowableValue(error: Throwable) | OpaqueValue(id: nat)

  class Annotation {
    var entries: map<Key, Value>

    /** `new Annotation(text)` stores the text under TextAnnotation. */
    constructor (text: string)
      ensures entries == map[TextAnnotation := TextValue(text)]
    {
      entries := map[TextAnnotation := TextValue(text)];
    }

    /** `annotation.set(key, value)`: overwrites one key, nothing else changes. */
    method Set(key: Key, value: Value)
      modifies this
      ensures entries == old(entries)[key := value]
    {
      entries := entries[key := value];
    }
  }
}
