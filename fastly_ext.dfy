/** The batch endpoint for dictionary items: ordered precondition checks, the
    request path, and one PATCH call whose outcome is an oracle. */
module FastlyExt {
  import opened Errors

  /** The most items one batch request may carry. */
  const BatchUpdateMaximumItems := 1000

  datatype BatchOperation =
    | CreateBatchOperation
    | UpdateBatchOperation
    | UpsertBatchOperation
    | DeleteBatchOperation

  datatype BatchUpdateDictionaryItem =
    BatchUpdateDictionaryItem(operation: BatchOperation, key: string, value: string)

  /** Service and dictionary are IDs; both are required. */
  datatype BatchUpdateDictionaryItemsInput =
    BatchUpdateDictionaryItemsInput(service: string, dictionary: string, items: seq<BatchUpdateDictionaryItem>)

  /** One PATCH request: the path and the JSON body. */
  datatype Patch = Patch(path: string, body: BatchUpdateDictionaryItemsInput)

  /** What a call did: the request it sent, if any, and the error it returned. */
  datatype BatchOutcome = BatchOutcome(sent: Option<Patch>, err: Option<Error>)

  const ServicePrefix: string := "/service/"
  const DictionaryInfix: string := "/dictionary/"
  const ItemsSuffix: string := "/items"

  function ItemsPath(service: string, dictionary: string): (path: string)
    ensures |path| == |service| + |dictionary| + 27
  {
    ServicePrefix + service + DictionaryInfix + dictionary + ItemsSuffix
  }

  /** Position of the first '/' in `s`, or |s| when there is none. */
  function IndexOfSlash(s: string): (n: nat)
    ensures n <= |s|
    ensures forall j :: 0 <= j < n ==> s[j] != '/'
    ensures n < |s| ==> s[n] == '/'
  {
    if s == [] then 0 else if s[0] == '/' then 0 else 1 + IndexOfSlash(s[1..])
  }

  /** Reads a service and a dictionary ID, neither holding '/', back out of
      an items path; the partner of ItemsPath. */
  function ParsePath(path: string): Option<(string, string)>
  {
    if |path| < 27 || path[..9] != ServicePrefix || path[|path| - 6..] != ItemsSuffix then None
    else
      var middle := path[9..|path| - 6];
      var n := IndexOfSlash(middle);
      var rest := middle[n..];
      if |rest| >= 12 && rest[..12] == DictionaryInfix && '/' !in rest[12..]
      then Some((middle[..n], rest[12..]))
      else None
  }

  lemma ParseItemsPath(service: string, dictionary: string)
    requires '/' !in service && '/' !in dictionary
    ensures ParsePath(ItemsPath(service, dictionary)) == Some((service, dictionary))
  {
    var path := ItemsPath(service, dictionary);
    var middle := service + DictionaryInfix + dictionary;
    assert path == ServicePrefix + middle + ItemsSuffix;
    assert path[..9] == ServicePrefix;
    assert path[|path| - 6..] == ItemsSuffix;
    assert path[9..|path| - 6] == middle;
    assert middle[|service|] == '/';
    var n := IndexOfSlash(middle);
    assert forall j :: 0 <= j < |service| ==> middle[j] == service[j];
    assert n == |service|;
    assert middle[..n] == service;
    var rest := middle[n..];
    assert rest == DictionaryInfix + dictionary;
    assert rest[..12] == DictionaryInfix;
    assert rest[12..] == dictionary;
  }

  /** What ParsePath accepts: the prefix, the suffix, and between them the
      service, the infix and the dictionary, neither holding '/'. */
  lemma ParsedPathParts(path: string, service: string, dictionary: string)
    requires ParsePath(path) == Some((service, dictionary))
    ensures |path| >= 27 && path[..9] == ServicePrefix && path[|path| - 6..] == ItemsSuffix
    ensures path[9..|path| - 6] == service + DictionaryInfix + dictionary
    ensures '/' !in service && '/' !in dictionary
  {
    var middle := path[9..|path| - 6];
    var n := IndexOfSlash(middle);
    var rest := middle[n..];
    assert service == middle[..n] && dictionary == rest[12..];
    assert rest == DictionaryInfix + dictionary by {
      assert rest == rest[..12] + rest[12..];
    }
    assert middle == middle[..n] + rest;
    forall j | 0 <= j < |service|
      ensures service[j] != '/'
    {
      assert service[j] == middle[j];
    }
  }

  lemma ParsedPathIsItemsPath(path: string, service: string, dictionary: string)
    requires ParsePath(path) == Some((service, dictionary))
    ensures path == ItemsPath(service, dictionary)
    ensures '/' !in service && '/' !in dictionary
  {
    ParsedPathParts(path, service, dictionary);
    JoinItemsPath(path, service, dictionary);
  }

  /** A path made of the prefix, service, infix, dictionary and suffix is
      the items path of that service and dictionary. */
  lemma JoinItemsPath(path: string, service: string, dictionary: string)
    requires |path| >= 27 && path[..9] == ServicePrefix && path[|path| - 6..] == ItemsSuffix
    requires path[9..|path| - 6] == service + DictionaryInfix + dictionary
    ensures path == ItemsPath(service, dictionary)
  {
    var middle := path[9..|path| - 6];
    assert path == path[..9] + middle + path[|path| - 6..];
    assert ServicePrefix + middle == ServicePrefix + service + DictionaryInfix + dictionary;
  }

  /** BatchUpdateDictionaryItems: the checks run in order (service, then
      dictionary, then item count); only an input that passes all three is
      sent, as one PATCH whose transport error is returned unchanged. */
  function BatchUpdateDictionaryItems(i: BatchUpdateDictionaryItemsInput, patchJSON: Patch -> Option<Error>): (r: BatchOutcome)
    ensures r.sent.Some? <==> i.service != "" && i.dictionary != "" && |i.items| <= BatchUpdateMaximumItems
    ensures i.service == "" ==> r.err == Some(MissingService)
    ensures i.service != "" && i.dictionary == "" ==> r.err == Some(MissingDictionary)
    ensures i.service != "" && i.dictionary != "" && |i.items| > BatchUpdateMaximumItems ==>
              r.err == Some(BatchUpdateMaximumItemsExceeded)
    ensures r.sent.Some? ==> r.sent.value.path == ItemsPath(i.service, i.dictionary) && r.sent.value.body == i && r.err == patchJSON(r.sent.value)
    ensures r.sent.Some? && '/' !in i.service && '/' !in i.dictionary ==>
              ParsePath(r.sent.value.path) == Some((i.service, i.dictionary))
  {
    if i.service == "" then BatchOutcome(None, Some(MissingService))
    else if i.dictionary == "" then BatchOutcome(None, Some(MissingDictionary))
    else if |i.items| > BatchUpdateMaximumItems then BatchOutcome(None, Some(BatchUpdateMaximumItemsExceeded))
    else
      var request := Patch(ItemsPath(i.service, i.dictionary), i);
      assert '/' !in i.service && '/' !in i.dictionary ==>
               ParsePath(request.path) == Some((i.service, i.dictionary)) by {
        if '/' !in i.service && '/' !in i.dictionary {
          ParseItemsPath(i.service, i.dictionary);
        }
      }
      BatchOutcome(Some(request), patchJSON(request))
  }
}
