/**
 * `encoding/json` as the stores use it: an encoder and a decoder for one Go
 * type, which may fail with an error text. The only law the stores rely on
 * is that what the encoder produced, the decoder reads back.
 */
module Json {
  import opened Base

  datatype Codec<!T> = Codec(marshal: T -> Result<Bytes>, unmarshal: Bytes -> Result<T>)

  /** `json.Unmarshal(json.Marshal(x))` gives `x` back. */
  ghost predicate RoundTrips<T(!new)>(c: Codec<T>)
  {
    forall x: T :: c.marshal(x).Ok? ==> c.unmarshal(c.marshal(x).value) == Ok(x)
  }
}
