/**
 * Attaching key/value arguments to log encoders. An encoder is abstracted as
 * the sequence of fields it has accumulated; encoderWithValues clones it and
 * adds a field for every (string key, value) pair of the variadic list, read
 * two at a time.
 */
module ZapUtil {

  /** A Go `any` argument as far as the pairing rule cares: a string, or something else. */
  datatype Any = Str(s: string) | Int(i: int) | Bool(b: bool) | Other(id: nat)

  /** zap.Any(key, value): a field with that key and that value (its encoding is not modelled). */
  datatype Field = Field(key: string, value: Any)

  /** A zapcore.Encoder: the fields added to it so far, in the order they were added. */
  class Encoder {
    var fields: seq<Field>

    constructor (fields: seq<Field>)
      ensures this.fields == fields
    {
      this.fields := fields;
    }

    /** Clone: a new encoder with the same fields; the original is not touched. */
    method Clone() returns (c: Encoder)
      ensures fresh(c) && c.fields == fields
    {
      c := new Encoder(fields);
    }

    /** Field.AddTo: appends one field. */
    method AddField(f: Field)
      modifies this
      ensures fields == old(fields) + [f]
    {
      fields := fields + [f];
    }
  }

  /** The field a pair contributes: one when the key is a string, none otherwise. */
  function PairFields(key: Any, value: Any): seq<Field> {
    if key.Str? then [Field(key.s, value)] else []
  }

  /**
   * The fields encoderWithValues adds for kvs: the pairs at positions (0, 1),
   * (2, 3), ... in order, each kept only when its key is a string; a trailing
   * unpaired element contributes nothing.
   */
  function KeyValueFields(kvs: seq<Any>): (fs: seq<Field>)
    ensures 2 * |fs| <= |kvs|
    decreases |kvs|
  {
    if |kvs| < 2 then [] else PairFields(kvs[0], kvs[1]) + KeyValueFields(kvs[2..])
  }

  /** encoderWithValues: a clone of enc with the accepted fields appended in argument order; enc itself is unchanged. */
  method EncoderWithValues(enc: Encoder, kvs: seq<Any>) returns (clone: Encoder)
    ensures fresh(clone)
    ensures clone.fields == enc.fields + KeyValueFields(kvs)
  {
    clone := enc.Clone();
    ghost var accepted: seq<Field> := [];
    var i := 1;
    while i < |kvs|
      invariant 1 <= i <= |kvs| + 1 && i % 2 == 1
      invariant accepted == KeyValueFields(kvs[..i - 1])
      invariant clone.fields == enc.fields + accepted
    {
      if kvs[i - 1].Str? {
        clone.AddField(Field(kvs[i - 1].s, kvs[i]));
      }
      accepted := accepted + PairFields(kvs[i - 1], kvs[i]);
      KeyValueFieldsSnoc(kvs, i - 1);
      i := i + 2;
    }
    KeyValueFieldsAtExit(kvs, i);
  }

  // ------------------------------------------------------------ properties

  /** Pairing restarts cleanly after an even-length prefix: the fields of a + b are those of a followed by those of b. */
  lemma {:induction false} KeyValueFieldsAppend(a: seq<Any>, b: seq<Any>)
    requires |a| % 2 == 0
    ensures KeyValueFields(a + b) == KeyValueFields(a) + KeyValueFields(b)
    decreases |a|
  {
    if |a| > 0 {
      var ab := a + b;
      assert ab[0] == a[0] && ab[1] == a[1];
      assert ab[2..] == a[2..] + b;
      assert KeyValueFields(ab) == PairFields(a[0], a[1]) + KeyValueFields(a[2..] + b);
      KeyValueFieldsAppend(a[2..], b);
    } else {
      assert a + b == b;
    }
  }

  /** One more complete pair after an even-length prefix contributes its own field, if any. */
  lemma KeyValueFieldsSnoc(kvs: seq<Any>, n: nat)
    requires n % 2 == 0 && n + 2 <= |kvs|
    ensures KeyValueFields(kvs[..n + 2]) == KeyValueFields(kvs[..n]) + PairFields(kvs[n], kvs[n + 1])
  {
    var pair := kvs[n..n + 2];
    assert pair[2..] == [];
    assert KeyValueFields(pair) == PairFields(kvs[n], kvs[n + 1]);
    assert kvs[..n] + pair == kvs[..n + 2];
    KeyValueFieldsAppend(kvs[..n], pair);
  }

  /** A trailing unpaired element is ignored. */
  lemma {:induction false} KeyValueFieldsTrailing(kvs: seq<Any>)
    requires |kvs| % 2 == 1
    ensures KeyValueFields(kvs) == KeyValueFields(kvs[..|kvs| - 1])
  {
    var n := |kvs| - 1;
    var last := [kvs[n]];
    assert KeyValueFields(last) == [];
    KeyValueFieldsAppend(kvs[..n], last);
    assert kvs[..n] + last == kvs;
  }

  /** Where the loop stops, at the first odd index not below |kvs|, it has seen every complete pair. */
  lemma KeyValueFieldsAtExit(kvs: seq<Any>, i: nat)
    requires 1 <= i && i % 2 == 1 && |kvs| <= i <= |kvs| + 1
    ensures KeyValueFields(kvs[..i - 1]) == KeyValueFields(kvs)
  {
    if i == |kvs| {
      KeyValueFieldsTrailing(kvs);
    } else {
      assert kvs[..i - 1] == kvs;
    }
  }

  /** A pair whose key is not a string is skipped, key and value alike, and the pairing goes on after it. */
  lemma {:induction false} NonStringKeySkipped(a: seq<Any>, key: Any, value: Any, b: seq<Any>)
    requires |a| % 2 == 0 && !key.Str?
    ensures KeyValueFields(a + [key, value] + b) == KeyValueFields(a + b)
  {
    var c := [key, value] + b;
    assert a + [key, value] + b == a + c;
    assert c[0] == key && c[2..] == b;
    assert KeyValueFields(c) == KeyValueFields(b);
    KeyValueFieldsAppend(a, c);
    KeyValueFieldsAppend(a, b);
  }

  /** A field is added exactly when it comes from a pair at an even position whose key is a string. */
  lemma {:induction false} KeyValueFieldsMembers(kvs: seq<Any>, f: Field)
    ensures f in KeyValueFields(kvs) <==>
      exists i :: 0 <= i < |kvs| - 1 && i % 2 == 0 && kvs[i].Str? && f == Field(kvs[i].s, kvs[i + 1])
    decreases |kvs|
  {
    if |kvs| >= 2 {
      var rest := kvs[2..];
      KeyValueFieldsMembers(rest, f);
      if f in KeyValueFields(kvs) {
        if f in PairFields(kvs[0], kvs[1]) {
          assert 0 < |kvs| - 1 && kvs[0].Str? && f == Field(kvs[0].s, kvs[0 + 1]);
        } else {
          assert f in KeyValueFields(rest);
          var j :| 0 <= j < |rest| - 1 && j % 2 == 0 && rest[j].Str? && f == Field(rest[j].s, rest[j + 1]);
          assert kvs[j + 2] == rest[j] && kvs[j + 2 + 1] == rest[j + 1];
        }
      }
      if exists i :: 0 <= i < |kvs| - 1 && i % 2 == 0 && kvs[i].Str? && f == Field(kvs[i].s, kvs[i + 1]) {
        var i :| 0 <= i < |kvs| - 1 && i % 2 == 0 && kvs[i].Str? && f == Field(kvs[i].s, kvs[i + 1]);
        if i >= 2 {
          assert rest[i - 2] == kvs[i] && rest[i - 2 + 1] == kvs[i + 1];
          assert f in KeyValueFields(rest);
        }
      }
    }
  }

  /** When every key is a string, each pair contributes exactly its own field, in order. */
  lemma {:induction false} AllStringKeys(kvs: seq<Any>)
    requires forall i :: 0 <= i < |kvs| - 1 && i % 2 == 0 ==> kvs[i].Str?
    ensures |KeyValueFields(kvs)| == |kvs| / 2
    ensures forall j :: 0 <= j < |kvs| / 2 ==> KeyValueFields(kvs)[j] == Field(kvs[2 * j].s, kvs[2 * j + 1])
    decreases |kvs|
  {
    if |kvs| >= 2 {
      var rest := kvs[2..];
      forall i | 0 <= i < |rest| - 1 && i % 2 == 0
        ensures rest[i].Str?
      {
        assert rest[i] == kvs[i + 2];
      }
      AllStringKeys(rest);
      var fs := KeyValueFields(kvs);
      assert fs == [Field(kvs[0].s, kvs[1])] + KeyValueFields(rest);
      forall j | 1 <= j < |kvs| / 2
        ensures fs[j] == Field(kvs[2 * j].s, kvs[2 * j + 1])
      {
        assert fs[j] == KeyValueFields(rest)[j - 1];
        assert rest[2 * (j - 1)] == kvs[2 * j] && rest[2 * (j - 1) + 1] == kvs[2 * j + 1];
      }
    }
  }

  /** The console and JSON encoders of the development logger. */
  datatype DevelopmentEncoder = DevelopmentEncoder(console: Encoder, json: Encoder)
  {
    /** WithValues (value receiver): both encoders get the same pairs, each on its own clone; the receiver's encoders keep their fields. */
    method WithValues(kvs: seq<Any>) returns (r: DevelopmentEncoder)
      ensures fresh(r.console) && fresh(r.json)
      ensures r.console.fields == console.fields + KeyValueFields(kvs)
      ensures r.json.fields == json.fields + KeyValueFields(kvs)
      ensures console.fields == old(console.fields) && json.fields == old(json.fields)
    {
      var c := EncoderWithValues(console, kvs);
      var j := EncoderWithValues(json, kvs);
      r := this.(console := c, json := j);
    }
  }

  /** The JSON encoder of the production logger. */
  datatype ProductionEncoder = ProductionEncoder(json: Encoder)
  {
    /** WithValues (value receiver): only the JSON encoder is replaced, by a clone with the pairs added. */
    method WithValues(kvs: seq<Any>) returns (r: ProductionEncoder)
      ensures fresh(r.json)
      ensures r.json.fields == json.fields + KeyValueFields(kvs)
      ensures json.fields == old(json.fields)
    {
      var j := EncoderWithValues(json, kvs);
      r := this.(json := j);
    }
  }
}
