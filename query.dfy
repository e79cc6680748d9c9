/**
 * The request payload of a poll: regex matchers over device fields built
 * from the configured SSIDs and client MAC addresses, and the list of
 * fields the server should return.
 */
module KismetQuery {
  import opened Wrappers
  import opened PyJson

  const NameField := "kismet.device.base.name"
  const MacField := "kismet.device.base.macaddr"
  /** The payload key the query appends to before it exists. */
  const FieldsKey := "fields"

  /** One `[field, pattern]` entry of the payload's `regex` list. */
  datatype Matcher = Matcher(field: string, pattern: string)

  /** The payload: its `regex` list and its `fields` tuple. */
  datatype Payload = Payload(regex: seq<Matcher>, fields: seq<string>)

  predicate IsLower(c: char) {
    'a' <= c <= 'z'
  }

  function UpperChar(c: char): char {
    if IsLower(c) then (c as int - 32) as char else c
  }

  /** `s.upper()` on ASCII text: lower-case letters become capitals, everything else stays. */
  function Upper(s: string): (r: string)
    ensures |r| == |s|
    ensures forall i :: 0 <= i < |r| ==> !IsLower(r[i])
    ensures forall i :: 0 <= i < |s| && !IsLower(s[i]) ==> r[i] == s[i]
    ensures forall i :: 0 <= i < |s| && IsLower(s[i]) ==> r[i] as int + 32 == s[i] as int
  {
    seq(|s|, i requires 0 <= i < |s| => UpperChar(s[i]))
  }

  /** Upper-casing twice is upper-casing once, so an already upper-case MAC is sent unchanged. */
  lemma UpperIdempotent(s: string)
    ensures Upper(Upper(s)) == Upper(s)
  {
  }

  /** The matchers for the configured SSIDs, in configuration order. */
  function NameMatchers(ssids: seq<string>): (r: seq<Matcher>)
    ensures |r| == |ssids|
    ensures forall i :: 0 <= i < |ssids| ==> r[i] == Matcher(NameField, ssids[i])
  {
    if ssids == [] then [] else [Matcher(NameField, ssids[0])] + NameMatchers(ssids[1..])
  }

  /** The matchers for the configured clients, MAC upper-cased, in configuration order. */
  function MacMatchers(clients: seq<string>): (r: seq<Matcher>)
    ensures |r| == |clients|
    ensures forall i :: 0 <= i < |clients| ==> r[i] == Matcher(MacField, Upper(clients[i]))
  {
    if clients == [] then [] else [Matcher(MacField, Upper(clients[0]))] + MacMatchers(clients[1..])
  }

  /** The `regex` list the two loops build: every SSID matcher, then every client matcher. */
  function RegexFilters(ssids: seq<string>, clients: seq<string>): seq<Matcher> {
    NameMatchers(ssids) + MacMatchers(clients)
  }

  /**
   * The two loops that fill `parameters['regex']`: one name matcher per SSID,
   * then one MAC matcher per client, each list in configuration order.
   */
  method BuildRegex(ssids: seq<string>, clients: seq<string>) returns (regex: seq<Matcher>)
    ensures regex == RegexFilters(ssids, clients)
    ensures |regex| == |ssids| + |clients|
    ensures forall i :: 0 <= i < |ssids| ==> regex[i] == Matcher(NameField, ssids[i])
    ensures forall j :: 0 <= j < |clients| ==> regex[|ssids| + j] == Matcher(MacField, Upper(clients[j]))
  {
    regex := [];
    for i := 0 to |ssids|
      invariant |regex| == i
      invariant forall k :: 0 <= k < i ==> regex[k] == Matcher(NameField, ssids[k])
    {
      regex := regex + [Matcher(NameField, ssids[i])];
    }
    for j := 0 to |clients|
      invariant |regex| == |ssids| + j
      invariant forall k :: 0 <= k < |ssids| ==> regex[k] == Matcher(NameField, ssids[k])
      invariant forall k :: 0 <= k < j ==> regex[|ssids| + k] == Matcher(MacField, Upper(clients[k]))
    {
      regex := regex + [Matcher(MacField, Upper(clients[j]))];
    }
  }

  /**
   * Building the payload as written: with any SSID configured, or else any
   * client, appending to the absent `fields` entry raises KeyError before the
   * loops run; otherwise the regex list is built (necessarily empty) and
   * `fields` is set to the MAC and name fields.
   */
  function QueryFor(ssids: seq<string>, clients: seq<string>): (r: Result<Payload, PyError>)
    ensures r.Err? <==> |ssids| > 0 || |clients| > 0
    ensures r.Err? ==> r.error == KeyError(FieldsKey)
    ensures r.Ok? ==> r.value == Payload([], [MacField, NameField])
  {
    if |ssids| > 0 then Err(KeyError(FieldsKey))
    else if |clients| > 0 then Err(KeyError(FieldsKey))
    else Ok(Payload(RegexFilters(ssids, clients), [MacField, NameField]))
  }
}
