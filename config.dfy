/**
 * `IConfiguration`: flat key paths such as `Authentication:ApiKey` mapped to
 * strings, looked up ignoring case. The host may reload the data at any time,
 * so the data is a mutable field and every read sees its current value.
 */
module Config {

  import opened Wrappers
  import opened CaseInsensitive

  class Configuration {
    var data: CaseInsensitiveMap

    constructor (data: CaseInsensitiveMap)
      ensures this.data == data
    {
      this.data := data;
    }

    /** `GetValue<string>(key)`: the configured string, or None where .NET yields null. */
    function GetValue(key: string): (r: Option<string>)
      reads this
      ensures r.None? <==> !HasName(data, key)
      ensures forall k :: k in data && NameEquals(k, key) ==> r == Some(data[k])
    {
      TryGetValue(data, key)
    }
  }
}
