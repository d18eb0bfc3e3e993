/** The `FormData` bodies the front end sends to the record store: an ordered
    list of named entries, each a string, a number (sent as its decimal text)
    or an uploaded file. */
module Forms {
  import opened Text

  /** A `File` the user picked; only its name is observable here. */
  datatype FileRef = FileRef(name: string)

  datatype FieldValue = Str(s: string) | Number(n: int) | Upload(file: FileRef)

  datatype Entry = Entry(key: string, value: FieldValue)

  type FormData = seq<Entry>

  /** The entry names, in the order they were appended. */
  function Keys(fd: FormData): (r: seq<string>)
    ensures |r| == |fd| && forall i :: 0 <= i < |fd| ==> r[i] == fd[i].key
  {
    if fd == [] then [] else [fd[0].key] + Keys(fd[1..])
  }

  /** Every string entry is already trimmed. */
  predicate StringsTrimmed(fd: FormData) {
    forall i :: 0 <= i < |fd| && fd[i].value.Str? ==> Trimmed(fd[i].value.s)
  }

  /** Some entry has the name `key`. */
  predicate Has(fd: FormData, key: string) {
    exists k :: 0 <= k < |fd| && fd[k].key == key
  }

  lemma HasAppend(a: FormData, b: FormData, key: string)
    ensures Has(a + b, key) <==> Has(a, key) || Has(b, key)
  {
    if Has(a + b, key) {
      var k :| 0 <= k < |a + b| && (a + b)[k].key == key;
      if k >= |a| {
        assert b[k - |a|].key == key;
      }
    }
    if Has(a, key) {
      var k :| 0 <= k < |a| && a[k].key == key;
      assert (a + b)[k].key == key;
    }
    if Has(b, key) {
      var k :| 0 <= k < |b| && b[k].key == key;
      assert (a + b)[|a| + k].key == key;
    }
  }

  lemma HasAppend4(a: FormData, b: FormData, c: FormData, d: FormData, key: string)
    ensures Has(a + b + c + d, key) <==> Has(a, key) || Has(b, key) || Has(c, key) || Has(d, key)
  {
    HasAppend(a, b, key);
    HasAppend(a + b, c, key);
    HasAppend(a + b + c, d, key);
  }

  /** Every entry named `key` carries the value `v`. */
  predicate SentAs(fd: FormData, key: string, v: FieldValue) {
    forall i :: 0 <= i < |fd| && fd[i].key == key ==> fd[i].value == v
  }

  /** `fd` sends `v` under the name `key`: some entry has that name, and
      every entry with it carries `v`. */
  predicate Sends(fd: FormData, key: string, v: FieldValue) {
    Has(fd, key) && SentAs(fd, key, v)
  }

  lemma SentAsAppend(a: FormData, b: FormData, key: string, v: FieldValue)
    ensures SentAs(a + b, key, v) <==> SentAs(a, key, v) && SentAs(b, key, v)
  {
    if SentAs(a + b, key, v) {
      forall i | 0 <= i < |a| && a[i].key == key ensures a[i].value == v {
        assert (a + b)[i] == a[i];
      }
      forall i | 0 <= i < |b| && b[i].key == key ensures b[i].value == v {
        assert (a + b)[|a| + i] == b[i];
      }
    }
  }

  lemma SentAs4(a: FormData, b: FormData, c: FormData, d: FormData, key: string, v: FieldValue)
    ensures SentAs(a + b + c + d, key, v) <==>
      SentAs(a, key, v) && SentAs(b, key, v) && SentAs(c, key, v) && SentAs(d, key, v)
  {
    SentAsAppend(a, b, key, v);
    SentAsAppend(a + b, c, key, v);
    SentAsAppend(a + b + c, d, key, v);
  }

  /** A body made of four parts sends `v` under `key` when some part has the
      name and every part that has it carries `v`. */
  lemma SendsOf4(a: FormData, b: FormData, c: FormData, d: FormData, key: string, v: FieldValue)
    requires Has(a, key) || Has(b, key) || Has(c, key) || Has(d, key)
    requires (Has(a, key) ==> SentAs(a, key, v)) && (Has(b, key) ==> SentAs(b, key, v))
    requires (Has(c, key) ==> SentAs(c, key, v)) && (Has(d, key) ==> SentAs(d, key, v))
    ensures Sends(a + b + c + d, key, v)
  {
    if !Has(a, key) { SentAsAbsent(a, key, v); }
    if !Has(b, key) { SentAsAbsent(b, key, v); }
    if !Has(c, key) { SentAsAbsent(c, key, v); }
    if !Has(d, key) { SentAsAbsent(d, key, v); }
    HasAppend4(a, b, c, d, key);
    SentAs4(a, b, c, d, key, v);
  }

  /** A list without the name sends nothing else under it. */
  lemma SentAsAbsent(fd: FormData, key: string, v: FieldValue)
    requires !Has(fd, key)
    ensures SentAs(fd, key, v)
  {
    forall i | 0 <= i < |fd| && fd[i].key == key ensures false {
      assert Has(fd, key);
    }
  }

  /** `[e]` when `present`, else nothing: an `if (...) formData.append(...)`. */
  function When(present: bool, e: Entry): (fd: FormData)
    ensures Has(fd, e.key) <==> present
    ensures forall key :: key != e.key ==> !Has(fd, key)
  {
    assert [e][0].key == e.key;
    if present then [e] else []
  }

  /** `fd` without the entries named in `keys`, in the same order. */
  function Without(fd: FormData, keys: set<string>): (r: FormData)
    ensures forall key :: Has(r, key) <==> Has(fd, key) && key !in keys
    ensures |r| <= |fd|
  {
    if fd == [] then []
    else
      var rest := Without(fd[1..], keys);
      assert forall key :: Has(fd, key) <==> fd[0].key == key || Has(fd[1..], key) by {
        assert fd == [fd[0]] + fd[1..];
        forall key ensures Has(fd, key) <==> fd[0].key == key || Has(fd[1..], key) {
          HasAppend([fd[0]], fd[1..], key);
        }
      }
      if fd[0].key in keys then rest
      else
        assert forall key :: Has([fd[0]] + rest, key) <==> fd[0].key == key || Has(rest, key) by {
          forall key ensures Has([fd[0]] + rest, key) <==> fd[0].key == key || Has(rest, key) {
            HasAppend([fd[0]], rest, key);
          }
        }
        [fd[0]] + rest
  }

  /** Removing names that do not occur changes nothing. */
  lemma {:induction false} WithoutAbsent(fd: FormData, keys: set<string>)
    requires forall key :: key in keys ==> !Has(fd, key)
    ensures Without(fd, keys) == fd
  {
    if fd != [] {
      assert fd[0].key !in keys by {
        if fd[0].key in keys {
          assert Has(fd, fd[0].key);
        }
      }
      assert forall key :: key in keys ==> !Has(fd[1..], key);
      WithoutAbsent(fd[1..], keys);
      assert fd == [fd[0]] + fd[1..];
    }
  }

  lemma {:induction false} WithoutAppend(a: FormData, b: FormData, keys: set<string>)
    ensures Without(a + b, keys) == Without(a, keys) + Without(b, keys)
  {
    if a != [] {
      assert (a + b)[0] == a[0] && (a + b)[1..] == a[1..] + b;
      WithoutAppend(a[1..], b, keys);
    } else {
      assert a + b == b;
    }
  }

  /** A list of at most one entry whose name is removed becomes empty. */
  lemma WithoutDropped(fd: FormData, keys: set<string>)
    requires |fd| <= 1 && (fd != [] ==> fd[0].key in keys)
    ensures Without(fd, keys) == []
  {
    if fd != [] {
      assert fd[1..] == [];
    }
  }

  /** Appending an entry whose name is removed does not change the result. */
  lemma WithoutDroppedSuffix(fd: FormData, dropped: FormData, keys: set<string>)
    requires |dropped| <= 1 && (dropped != [] ==> dropped[0].key in keys)
    ensures Without(fd + dropped, keys) == Without(fd, keys)
  {
    WithoutDropped(dropped, keys);
    WithoutAppend(fd, dropped, keys);
  }

  /** Removing `keys` from `a + dropped1 + dropped2 + b`, where only the two
      middle parts carry those names, leaves `a + b`. */
  lemma WithoutMiddle(a: FormData, dropped1: FormData, dropped2: FormData, b: FormData, keys: set<string>)
    requires forall key :: key in keys ==> !Has(a, key)
    requires forall key :: key in keys ==> !Has(b, key)
    requires |dropped1| <= 1 && (dropped1 != [] ==> dropped1[0].key in keys)
    requires |dropped2| <= 1 && (dropped2 != [] ==> dropped2[0].key in keys)
    ensures Without(a + dropped1 + dropped2 + b, keys) == a + b
  {
    WithoutAbsent(a, keys);
    WithoutAbsent(b, keys);
    WithoutDroppedSuffix(a, dropped1, keys);
    WithoutDroppedSuffix(a + dropped1, dropped2, keys);
    WithoutAppend(a + dropped1 + dropped2, b, keys);
  }
}
