# ojson in Dafny

A model of `ojson`, a Go package that reads JSON into a tree whose objects
remember the order of their keys, and writes such a tree back out in that
order. The package has three parts, and each is modelled here:

- **`Object`** holds a key order (`keyOrder`) and a map (`values`). `Set`
  appends a key the map does not have yet. For a key it already has, `Set`
  only replaces the value, so the first insertion position wins.
- **The decoder** (`unmarshal`, `unmarshalArray`, `unmarshalObject`) reads
  tokens from `encoding/json`'s tokenizer and builds the tree by recursive
  descent. When `unmarshal` finds a closing delimiter where a value should be,
  it hands that delimiter back as a sentinel, which is how the array loop
  finds its own `]`. Each structural mistake gets its own error.
- **The encoder** (`Object.MarshalJSON`) writes `{`, then the entries in key
  order with `,` between them, then `}`.

`Value` wraps one decoded document. It has `UnmarshalJSON`, `Scan` and
`NewValueFromJSON`.

Layout:

- `values.dfy` (`JsonValues`): the tree and the object invariant. An object
  as a value is `ObjectValue(keys, vals)`, and `Set` on a value is `SetEntry`.
- `object.dfy` (`OrderedObject`): class `Object` with the two fields the
  source has. `Set` updates them in place. `MarshalJSON` is the source's
  loop, proved equal to the `MarshalObject` function.
- `tokens.dfy` (`Tokens`): the token stream, and `Flatten`, which gives the
  tokens of a tree.
- `decoding.dfy` (`Decoding`): the decoder as functions over a stream and a
  position.
- `stream_decoder.dfy` (`StreamDecoder`): the decoder as the source runs it.
  A `Decoder` object hands out one token per call. `unmarshalArray` and
  `unmarshalObject` are `while` loops that append, or call `Object.Set`.
  Each method is proved to agree with its function in `Decoding`.
- `decoding_lemmas.dfy`, `decoding_invariants.dfy`, `decoding_errors.dfy`,
  `decoding_examples.dfy`: the token-level round trip, what every run keeps,
  the structural errors, and worked documents.
- `encoding.dfy`, `encoding_lemmas.dfy`: the encoder as functions, and the
  facts about its output.
- `document.dfy` (`Document`): class `Value`.

The tokenizer and the scalar encoder of `encoding/json` are parameters, not
models. A `Stream` is the tokens the tokenizer yields, followed by the error
it stops with (end of input, or a syntax error), which it then keeps
reporting. `tokenize` maps bytes to such a stream. `enc` formats a scalar:
`Str(k)` for a key, and `Null`, `Bool`, `Num` or `Str` for a value.

## Model

| member | source | states |
|---|---|---|
| JsonValues.Get | ojson.go:40-43 | `found` holds exactly when the key is in the map, and a hit returns the map's value for it; a miss yields nil (Null); on an object that keeps the invariant, `found` holds exactly when the key is in the key order |
| JsonValues.SetEntry | ojson.go:45-51 | a key already present keeps the key order unchanged; an absent key is appended at the end; the map then holds the new value under the key |
| JsonValues.SetEntryKeepsInvariant | ojson.go:45-51 | `Set` keeps "no duplicate keys, and the key order lists exactly the keys of the map", and keeps a tree well-formed at every depth |
| JsonValues.SetEntryThenGet | ojson.go:40-51 | after `Set(k, v)`, `Get(k)` returns `(v, true)` and every other key reads as before |
| JsonValues.SetKeepsPositions | ojson.go:46-50 | `Set` never moves a key that is already in the key order |
| JsonValues.FirstInsertionWins | ojson.go:45-51 | `Set(a,1); Set(b,2); Set(a,3)` on a new object gives the order `[a, b]` with `a` = 3 |
| OrderedObject.Object.constructor | ojson.go:33-38 | `NewObject` has no keys and no values, and keeps the invariant |
| OrderedObject.Object.Get | ojson.go:40-43 | `found` exactly when the key is in the map, and then the value is the map's; otherwise nil; on a valid object, found exactly when the key is in the key order |
| OrderedObject.Object.KeyOrder | ojson.go:53-55 | the result is the object's own key order (first-insertion order); on a valid object it has no duplicates and holds exactly the keys `Get` finds |
| OrderedObject.Object.Set | ojson.go:45-51 | a new key is appended to `keyOrder`; an existing key leaves `keyOrder` unchanged; `values` becomes `values[k := v]`; the invariant is kept |
| OrderedObject.Object.SetAndReturn | ojson.go:60-63 | the same effect as `Set`, and the result is the receiver itself |
| OrderedObject.Object.MarshalJSON | ojson.go:65-85 | the text the loop builds, or its first error, is `MarshalObject` of the object's contents |
| OrderedObject.FirstInsertionWins | ojson.go:45-63 | on a real `Object`, chained `SetAndReturn(a,1)`, `(b,2)`, `(a,3)` give `KeyOrder() == [a, b]` and `Get(a) == (3, true)` |
| Encoding.Marshal | ojson.go:77 | `json.Marshal` of an object succeeds exactly when its `MarshalJSON` does, with the same text; its error comes back wrapped in a `MarshalerError` |
| EncodingLemmas.ObjectShape | ojson.go:65-84 | an object is written as `{`, then one entry per key of the key order (encoded key, `:`, encoded value), with `,` only between entries, then `}`; the first entry that fails makes the whole call fail with its error (an error from a nested object already carries its `MarshalerError` wrapping) |
| EncodingLemmas.ArrayShape | ojson.go:77 | an array is written as `[`, its elements in order with `,` only between them, then `]`, or fails with its first element's error |
| EncodingLemmas.EntriesJoined | ojson.go:68-82 | the loop's entry-by-entry text agrees with joining all entry texts with `,` |
| EncodingLemmas.EmptyShapes | ojson.go:67-83 | an empty object is written `{}` and an empty array `[]` |
| EncodingLemmas.MarshalOk | ojson.go:72-80 | encoding a tree succeeds exactly when every key and every scalar in it can be encoded |
| EncodingLemmas.EntriesOk | ojson.go:68-82 | `MarshalJSON` succeeds exactly when every key of the key order and every value under it can be encoded |
| EncodingLemmas.CollectOk | ojson.go:72-80 | gathering entry texts succeeds exactly when each entry does, and then yields one text per entry, in order |
| EncodingLemmas.EntriesErrorSticks | ojson.go:72-80 | after the first failing entry no later entry changes the result: the call fails with that error |
| EncodingLemmas.OtherEntriesUnchanged | ojson.go:45-51 | `Set(k, v)` leaves the written entry of every other key unchanged |
| EncodingLemmas.SetNewKeyWrittenLast | ojson.go:65-84 | after `Set` of a new key, `MarshalJSON` writes the previous text with `,` (unless it was empty), the key, `:` and the value inserted before the final `}` |
| EncodingLemmas.SetExistingKeyInPlace | ojson.go:65-84 | after `Set` of an existing key, every entry is written at the same index, and only that key's entry changes |
| Decoding.ParseValue | ojson.go:133-167 | `unmarshal` consumes at least one token; a sentinel is only `}` or `]`, read from exactly the one token consumed |
| Decoding.ParseArray | ojson.go:169-185 | the array loop consumes at least its closing token |
| Decoding.ParseObject | ojson.go:187-216 | the object loop consumes at least its closing token |
| Decoding.DecodeRoot | ojson.go:103-111 | the root is rejected exactly when the first token is `}` or `]`; on any other error `V` is nil |
| DecodingLemmas.ParseFlatten | ojson.go:133-216 | decoding the tokens of a well-formed tree, followed by anything, returns that tree and stops right after its tokens |
| DecodingLemmas.ParseEntries | ojson.go:189-215 | the object loop over the tokens of some entries performs exactly the `Set` calls for those entries, in order |
| DecodingLemmas.ParseElems | ojson.go:171-184 | the array loop over the tokens of some elements appends exactly those elements, in order |
| DecodingLemmas.ReplayAll | ojson.go:45-51 | replaying the entries of an object that keeps the invariant through `Set`, starting from `NewObject`, rebuilds it, key order included |
| DecodingLemmas.RootRoundTrip | ojson.go:103-216 | a document whose tokens are those of a well-formed tree, followed by anything, decodes to that tree with no error |
| DecodingInvariants.ValueWellFormed | ojson.go:133-216 | every value the decoder returns keeps the object invariant at every depth |
| DecodingInvariants.RootWellFormed | ojson.go:103-111 | every decoded document is well-formed |
| DecodingInvariants.ValueLexError | ojson.go:133-216 | the only tokenizer error the decoder reports is the one the tokenizer stopped with, passed on unchanged |
| DecodingErrors.ArrayErrors | ojson.go:169-185 | after well-formed elements, `}` gives "unexpected delimiter (expecting ])", a token of no JSON type gives "unexpected type", and the end of the stream gives the tokenizer's error |
| DecodingErrors.ObjectErrors | ojson.go:187-216 | after well-formed entries: a delimiter other than `}` gives "unexpected delimiter (expecting })"; a non-string key gives "unexpected token"; a key followed by `}` or `]` gives "unexpected delimiter"; the end of the stream gives the tokenizer's error |
| DecodingErrors.CutValue | ojson.go:133-216 | the tokens of a well-formed tree cut short at any point fail with the tokenizer's error |
| DecodingErrors.CutRoot | ojson.go:103-111 | a document cut short sets `V` to nil and reports the tokenizer's error |
| DecodingExamples.EmptyContainers | ojson.go:169-199 | `{}` decodes to an empty object and `[]` to an empty array |
| DecodingExamples.DuplicateKey | ojson.go:202-210 | `{"a":1,"b":2,"a":3}` decodes to keys `a`, `b` with `a` = 3 |
| DecodingExamples.NestedOrders | ojson_test.go:33-55 | `{"b":{"c":1,"d":2},"a":{"d":2,"c":1}}` decodes with the order `b`, `a` outside, and `c`, `d` and `d`, `c` inside |
| StreamDecoder.Decoder.Token | ojson.go:135 | `Token()` returns the next token and advances, or returns the tokenizer's error and stays |
| StreamDecoder.Unmarshal | ojson.go:133-167 | `unmarshal` returns what `ParseValue` computes and leaves the decoder where `ParseValue` stops |
| StreamDecoder.UnmarshalArray | ojson.go:169-185 | `unmarshalArray` returns what `ParseArray` computes from an empty slice and leaves the decoder where it stops |
| StreamDecoder.UnmarshalObject | ojson.go:187-216 | `unmarshalObject` returns a new valid `Object` holding what `ParseObject` computes from `NewObject`, or its error |
| Document.Value.UnmarshalJSON | ojson.go:103-111 | a root sentinel gives "unexpected delimiter" and leaves `V` alone; otherwise `V` gets the decoded value (nil on error) and the error is returned |
| Document.Value.Scan | ojson.go:95-101 | a source that is not a byte slice gives "type assertion .([]byte) failed" and leaves `V` alone; a byte slice is decoded as by `UnmarshalJSON` |
| Document.Value.MarshalJSON | ojson.go:91-93 | the output is `json.Marshal` of `V`; when `V` is an object, its `MarshalJSON` error comes back wrapped in a `MarshalerError` |
| Document.NewValueFromJSON | ojson.go:113-119 | a new `Value` decoded from the string, with `V` nil when the root is rejected |
| Document.DecodeFlattened | ojson.go:103-119 | `NewValueFromJSON` on a text whose tokens are those of a well-formed tree gives that tree and no error |
| Document.DecodeTruncated | ojson.go:103-119 | `NewValueFromJSON` on a text whose tokens stop inside a tree gives nil and the tokenizer's error |

## Left out

- The tokenizer (`json.Decoder.Token`) is a parameter. Its own syntax checks are not modelled: it rejects, for example, `{` in key position, `[1,2}` and a missing `:`. The error lemmas therefore cover some token sequences the real tokenizer never hands over. Which structural error the package reports for a mismatched closer depends on the tokenizer letting that closer through.
- Scalar formatting is a parameter `enc`: string escaping, HTML escaping and float64 formatting belong to `encoding/json`. Keys go through the same `enc` as string values.
- `Object.MarshalJSON`: the newline that `Encoder.Encode` writes after each key is not modelled. When the call comes through `json.Marshal`, its compaction removes the newline, and the text the model gives is what the caller gets. A direct call of `Object.MarshalJSON` returns `"k"` followed by a newline and then `:` for each key, and the model does not capture that newline.
- Encoding errors over-approximate: Go's encoder fails only on a NaN or infinite float64 (and a key never fails to encode), while `Num` holds a `real` and `enc` may fail on any scalar or key. The error lemmas therefore cover failures the real encoder never reports.
- Numbers are opaque `real` payloads. Float64 parsing and rounding are not modelled.
- Arrays are encoded the way reflection encodes a slice of values. Reflection itself is not modelled.
- Byte-level round trip (encode, then decode, giving the same bytes) is not modelled. It needs the tokenizer and the scalar encoder, which are both parameters. The token-level round trip is proved instead (`RootRoundTrip`, `DecodeFlattened`).
- Objects in the tree are values (`ObjectValue`), not shared references to `*Object` values. `unmarshal` stores a snapshot of the `Object` it built, which nothing else refers to afterwards. Aliasing of objects across a tree a caller builds by hand is not modelled.
- The encoder's output is a `string` (a sequence of characters) where Go yields `[]byte`, while the decoder's input is a sequence of bytes. This is a choice of representation: no conversion between characters and bytes (UTF-8 encoding) is modelled, so the model does not connect the encoder's output to the decoder's input.
- `Object.KeyOrder` returns a copy of the key order. In Go it returns the object's own slice, so a caller that writes through that slice changes the object's order and can break the no-duplicates invariant. That aliasing is not modelled.
- `unmarshalArray` returns its partial slice with an error, and `unmarshal` then discards it. The model returns only the error.
- `MustNewValueFromJSON` only panics on the error of `NewValueFromJSON`, so it is not modelled.
- `Value.Value` (the `driver.Valuer` method) only calls `json.Marshal` on the value, so it is not modelled. The interface assertions are not modelled either.
- Stack depth is not modelled: nesting is unbounded.
- The test comparing output with Go's sorted-map encoding depends on library behaviour and is not modelled.
- `UnmarshalJSON` decodes the first value and does not look at any tokens after it. The model does the same, which is why the round-trip lemmas allow any tail.
