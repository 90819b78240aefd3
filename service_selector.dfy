/** The service picker's index over a list of services: the names shown to
    the user, in list order, and the lookup of the service chosen by name. */
module ServiceSelector {
  import opened Errors

  datatype Service = Service(id: string, name: string)

  /** Index of the first service named `key`, or |s| when there is none. */
  function FirstNamed(s: seq<Service>, key: string): (k: nat)
    ensures k <= |s|
    ensures forall j :: 0 <= j < k ==> s[j].name != key
    ensures k < |s| ==> s[k].name == key
  {
    if s == [] then 0 else if s[0].name == key then 0 else 1 + FirstNamed(s[1..], key)
  }

  /** Keys: one name per service, in list order. */
  method Keys(s: seq<Service>) returns (r: seq<string>)
    ensures |r| == |s|
    ensures forall i :: 0 <= i < |s| ==> r[i] == s[i].name
  {
    r := [];
    var i := 0;
    while i < |s|
      invariant 0 <= i <= |s|
      invariant |r| == i
      invariant forall j :: 0 <= j < i ==> r[j] == s[j].name
    {
      r := r + [s[i].name];
      i := i + 1;
    }
  }

  /** ByKey: the first service whose name is `key`, or none when no name
      matches. */
  method ByKey(s: seq<Service>, key: string) returns (r: Option<Service>)
    ensures r.Some? <==> exists i :: 0 <= i < |s| && s[i].name == key
    ensures r.Some? ==> r.value.name == key && r.value == s[FirstNamed(s, key)]
  {
    var i := 0;
    while i < |s|
      invariant 0 <= i <= |s|
      invariant forall j :: 0 <= j < i ==> s[j].name != key
    {
      if s[i].name == key {
        assert FirstNamed(s, key) == i;
        return Some(s[i]);
      }
      i := i + 1;
    }
    return None;
  }

  /** Looking up any listed name finds a service of that name at or before
      the position the name was listed at: the picker never fails to map a
      choice back, and with repeated names it is the first that is found. */
  lemma LookupOfListedName(s: seq<Service>, i: nat)
    requires i < |s|
    ensures FirstNamed(s, s[i].name) <= i
    ensures s[FirstNamed(s, s[i].name)].name == s[i].name
  {
  }
}
