// Records served by the DNS responder (network/dns_responder.go): the record map and the lookup, whatever order the map
// is walked in. CNAME records answer A and AAAA queries as in section 3.6.2 of RFC 1034; names are compared without
// case as in section 2.3.3 of RFC 1035.
module DnsResponder {
  import opened DisruptionTypes
  import opened Text

  datatype Entry = Entry(hostname: string, recordType: string)

  function HostOf(e: Entry): string {
    ToLower(TrimSuffix(TrimSpace(e.hostname), "."))
  }

  function TypeOf(e: Entry): string {
    ToUpper(TrimSpace(e.recordType))
  }

  function Key(host: string, recordType: string): string {
    host + "|" + recordType
  }

  function KeyOf(e: Entry): string {
    Key(HostOf(e), TypeOf(e))
  }

  // strings.SplitN at the first bar.
  function Cut(key: string): Option<(string, string)> {
    if key == "" then None
    else if key[0] == '|' then Some(("", key[1..]))
    else
      var rest := Cut(key[1..]);
      if rest.None? then None else Some(([key[0]] + rest.value.0, rest.value.1))
  }

  lemma {:induction false} CutKey(host: string, recordType: string)
    requires '|' !in host
    ensures Cut(Key(host, recordType)) == Some((host, recordType))
  {
    var key := Key(host, recordType);
    if host == "" {
      assert key[1..] == recordType;
    } else {
      CutKey(host[1..], recordType);
      assert key[1..] == Key(host[1..], recordType);
      assert host == [host[0]] + host[1..];
    }
  }

  /* ---------- the record map ---------- */

  // The key of every entry leads to the last entry that has it.
  ghost predicate LastWins(records: map<string, nat>, config: seq<Entry>) {
    && (forall k :: k in records ==> records[k] < |config| && k == KeyOf(config[records[k]]))
    && (forall i :: 0 <= i < |config| ==>
          KeyOf(config[i]) in records && i <= records[KeyOf(config[i])])
  }

  method NewRecords(config: seq<Entry>) returns (records: map<string, nat>)
    ensures LastWins(records, config)
  {
    hide HostOf, TypeOf, Key;
    records := map[];
    for n := 0 to |config|
      invariant LastWins(records, config[..n])
    {
      ghost var before := records;
      records := records[KeyOf(config[n]) := n];
      assert forall i :: 0 <= i < n ==> config[..n + 1][i] == config[..n][i];
    }
    assert config[..|config|] == config;
  }

  /* ---------- lookup ---------- */

  // A CNAME record answers address queries.
  predicate Compatible(recordType: string, queryType: string) {
    recordType == queryType || ((queryType == "A" || queryType == "AAAA") && recordType == "CNAME")
  }

  // The host is a parent of the queried domain, at a dot.
  predicate Parent(host: string, domain: string) {
    host != "" && HasSuffix(domain, "." + host)
  }

  predicate Answers(key: string, domain: string, queryType: string) {
    var cut := Cut(key);
    cut.Some? && Compatible(cut.value.1, queryType) && (cut.value.0 == domain || Parent(cut.value.0, domain))
  }

  predicate AnswersForParent(key: string, domain: string, queryType: string) {
    var cut := Cut(key);
    cut.Some? && Compatible(cut.value.1, queryType) && Parent(cut.value.0, domain)
  }

  function HostOfKey(key: string): string {
    var cut := Cut(key);
    if cut.Some? then cut.value.0 else ""
  }

  // No key has a bar in its host or in its type.
  ghost predicate WellKeyed(records: map<string, nat>) {
    forall k :: k in records ==> SingleBar(k)
  }

  predicate SingleBar(k: string) {
    Cut(k).Some? && k == Key(Cut(k).value.0, Cut(k).value.1) && '|' !in Cut(k).value.0 && '|' !in Cut(k).value.1
  }

  // The longest of the hosts that answer.
  ghost predicate Best(records: map<string, nat>, key: string, domain: string, queryType: string) {
    && key in records && Answers(key, domain, queryType)
    && forall k :: k in records && Answers(k, domain, queryType) ==> |HostOfKey(k)| <= |HostOfKey(key)|
  }

  predicate ChosenParent(records: map<string, nat>, key: string, domain: string, queryType: string, host: string) {
    key in records && AnswersForParent(key, domain, queryType) && HostOfKey(key) == host
  }

  // The walk over the map, for parents of the domain.
  method FindParent(records: map<string, nat>, domain: string, queryType: string)
    returns (best: string, found: Option<nat>)
    ensures found.None? ==> forall k :: k in records ==> !AnswersForParent(k, domain, queryType)
    ensures found.Some? ==>
      exists key :: ChosenParent(records, key, domain, queryType, best) && found == Some(records[key])
    ensures forall k :: k in records && AnswersForParent(k, domain, queryType) ==> |HostOfKey(k)| <= |best|
  {
    hide Cut, Compatible, HasSuffix;
    best, found := "", None;
    ghost var chosen := "";
    var keys := AnyOrder(records.Keys);
    for n := 0 to |keys|
      invariant found.None? ==> best == "" && forall j :: 0 <= j < n ==> !AnswersForParent(keys[j], domain, queryType)
      invariant found.Some? ==> ChosenParent(records, chosen, domain, queryType, best) && found == Some(records[chosen])
      invariant forall j :: 0 <= j < n && AnswersForParent(keys[j], domain, queryType) ==>
        |HostOfKey(keys[j])| <= |best|
    {
      var key := keys[n];
      assert key in Elements(keys);
      var cut := Cut(key);
      if && cut.Some? && Compatible(cut.value.1, queryType)
         && HasSuffix(domain, "." + cut.value.0) && |cut.value.0| > |best|
      {
        best, found := cut.value.0, Some(records[key]);
        chosen := key;
      }
    }
    forall k | k in records ensures exists j :: 0 <= j < |keys| && keys[j] == k {
      assert k in Elements(keys);
    }
  }

  method FindRecord(records: map<string, nat>, queried: string, queryType: string) returns (r: Option<nat>)
    ensures WellKeyed(records) && '|' !in queryType ==>
      var domain := ToLower(TrimSuffix(queried, "."));
      && (r.None? <==> forall k :: k in records ==> !Answers(k, domain, queryType))
      && (r.Some? ==> exists key :: Best(records, key, domain, queryType) && r == Some(records[key]))
      && (Key(domain, queryType) in records ==> r == Some(records[Key(domain, queryType)]))
  {
    hide Cut, HasSuffix, Key;
    var domain := ToLower(TrimSuffix(queried, "."));
    if Key(domain, queryType) in records {
      if WellKeyed(records) && '|' !in queryType {
        ExactIsBest(records, domain, queryType, queryType);
      }
      return Some(records[Key(domain, queryType)]);
    }
    if (queryType == "A" || queryType == "AAAA") && Key(domain, "CNAME") in records {
      if WellKeyed(records) && '|' !in queryType {
        ExactIsBest(records, domain, queryType, "CNAME");
      }
      return Some(records[Key(domain, "CNAME")]);
    }
    var best;
    best, r := FindParent(records, domain, queryType);
    if WellKeyed(records) {
      forall k | k in records && Answers(k, domain, queryType) ensures AnswersForParent(k, domain, queryType) {
        assert SingleBar(k);
      }
    }
  }

  // An exact name is longer than all its parents.
  lemma ExactIsBest(records: map<string, nat>, domain: string, queryType: string, recordType: string)
    requires WellKeyed(records) && Key(domain, recordType) in records && Compatible(recordType, queryType)
    requires '|' !in recordType
    ensures Best(records, Key(domain, recordType), domain, queryType)
  {
    BarSplits(domain, recordType);
    forall k | k in records && Answers(k, domain, queryType) ensures |HostOfKey(k)| <= |domain| {
    }
  }

  // A key with a single bar has it where it was put.
  lemma BarSplits(host: string, recordType: string)
    requires SingleBar(Key(host, recordType)) && '|' !in recordType
    ensures Cut(Key(host, recordType)) == Some((host, recordType))
  {
    var k := Key(host, recordType);
    var cut := Cut(k).value;
    assert forall i :: 0 <= i < |cut.0| ==> k[i] == cut.0[i];
    assert forall i :: |cut.0| < i < |k| ==> k[i] == cut.1[i - |cut.0| - 1];
    assert k[|host|] == '|';
    assert host == k[..|host|] && cut.0 == k[..|cut.0|] && recordType == k[|host| + 1..] && cut.1 == k[|cut.0| + 1..];
  }

  // Two hosts of the same length that answer are the same: the longest host is unique.
  lemma LongestIsUnique(a: string, b: string, domain: string, queryType: string)
    requires Answers(a, domain, queryType) && Answers(b, domain, queryType) && |HostOfKey(a)| == |HostOfKey(b)|
    ensures HostOfKey(a) == HostOfKey(b)
  {
    var x, y := HostOfKey(a), HostOfKey(b);
    if x != domain && y != domain {
      assert domain[|domain| - |x| - 1..] == "." + x && domain[|domain| - |y| - 1..] == "." + y;
      assert ("." + x)[1..] == x && ("." + y)[1..] == y;
    }
  }

  // Keys built from names and types without bars are well keyed.
  lemma NoBarsWellKeyed(records: map<string, nat>, config: seq<Entry>)
    requires LastWins(records, config)
    requires forall e :: e in config ==> '|' !in HostOf(e) && '|' !in TypeOf(e)
    ensures WellKeyed(records)
  {
    hide HostOf, TypeOf;
    forall k | k in records ensures SingleBar(k) {
      var e := config[records[k]];
      assert e in config;
      CutKey(HostOf(e), TypeOf(e));
    }
  }

  /* ---------- from the configuration to the answer ---------- */

  predicate EntryAnswers(e: Entry, domain: string, queryType: string) {
    Compatible(TypeOf(e), queryType) && (HostOf(e) == domain || Parent(HostOf(e), domain))
  }

  // No host or type of the configuration has a bar.
  ghost predicate NoBars(config: seq<Entry>) {
    forall e :: e in config ==> '|' !in HostOf(e) && '|' !in TypeOf(e)
  }

  // The i-th entry is what the configuration has to say: it answers, no entry for a longer host does, and it is the
  // last for its host and type.
  ghost predicate Governs(config: seq<Entry>, i: nat, domain: string, queryType: string) {
    && i < |config| && EntryAnswers(config[i], domain, queryType)
    && (forall j :: 0 <= j < |config| && EntryAnswers(config[j], domain, queryType) ==>
          |HostOf(config[j])| <= |HostOf(config[i])|)
    && (forall j :: i < j < |config| ==>
          (HostOf(config[j]), TypeOf(config[j])) != (HostOf(config[i]), TypeOf(config[i])))
  }

  // A query against a configuration: the answer governs, there is none exactly when no entry answers, and an entry for
  // the very name and type goes before all others.
  method Respond(config: seq<Entry>, queried: string, queryType: string) returns (r: Option<nat>)
    ensures NoBars(config) && '|' !in queryType ==>
      var domain := ToLower(TrimSuffix(queried, "."));
      && (r.None? <==> forall i :: 0 <= i < |config| ==> !EntryAnswers(config[i], domain, queryType))
      && (r.Some? ==> Governs(config, r.value, domain, queryType))
      && ((exists i :: 0 <= i < |config| && HostOf(config[i]) == domain && TypeOf(config[i]) == queryType) ==>
            r.Some? && r.value < |config| && HostOf(config[r.value]) == domain && TypeOf(config[r.value]) == queryType)
  {
    hide HostOf, TypeOf, Key, Answers, EntryAnswers, Cut, LastWins;
    var records := NewRecords(config);
    r := FindRecord(records, queried, queryType);
    if NoBars(config) && '|' !in queryType {
      NoBarsWellKeyed(records, config);
      var domain := ToLower(TrimSuffix(queried, "."));
      forall i | 0 <= i < |config| ensures
        var key := KeyOf(config[i]);
        key in records && (Answers(key, domain, queryType) <==> EntryAnswers(config[i], domain, queryType))
      {
        EntryKey(records, config, i, domain, queryType);
      }
      if r.Some? {
        var key :| Best(records, key, domain, queryType) && r == Some(records[key]);
        BestGoverns(records, config, key, domain, queryType);
      }
      if i :| 0 <= i < |config| && HostOf(config[i]) == domain && TypeOf(config[i]) == queryType {
        assert config[i] in config;
        RecordOf(records, config, Key(domain, queryType), domain, queryType);
      } else if r.None? {
        NoRecord(records, config, domain, queryType);
      }
    }
  }

  lemma EntryKey(records: map<string, nat>, config: seq<Entry>, i: nat, domain: string, queryType: string)
    requires LastWins(records, config) && NoBars(config) && i < |config|
    ensures var key := KeyOf(config[i]);
      && key in records && i <= records[key] && HostOfKey(key) == HostOf(config[i])
      && (Answers(key, domain, queryType) <==> EntryAnswers(config[i], domain, queryType))
  {
    hide HostOf, TypeOf, Key;
    assert config[i] in config;
    CutKey(HostOf(config[i]), TypeOf(config[i]));
  }

  // The entry a key leads to has that key.
  lemma RecordOf(records: map<string, nat>, config: seq<Entry>, key: string, host: string, recordType: string)
    requires LastWins(records, config) && NoBars(config) && key in records
    ensures records[key] < |config|
    ensures key == Key(host, recordType) && '|' !in host ==>
      HostOf(config[records[key]]) == host && TypeOf(config[records[key]]) == recordType
  {
    hide HostOf, TypeOf, Key;
    var e := config[records[key]];
    assert e in config;
    CutKey(HostOf(e), TypeOf(e));
    if '|' !in host {
      CutKey(host, recordType);
    }
  }

  lemma BestGoverns(records: map<string, nat>, config: seq<Entry>, key: string, domain: string, queryType: string)
    requires LastWins(records, config) && NoBars(config) && Best(records, key, domain, queryType)
    ensures Governs(config, records[key], domain, queryType)
  {
    hide HostOf, TypeOf, Key, Answers, EntryAnswers, Cut, HostOfKey;
    var i := records[key];
    RecordOf(records, config, key, "", "");
    EntryKey(records, config, i, domain, queryType);
    forall j | 0 <= j < |config| && EntryAnswers(config[j], domain, queryType)
      ensures |HostOf(config[j])| <= |HostOf(config[i])|
    {
      EntryKey(records, config, j, domain, queryType);
    }
  }

  lemma NoRecord(records: map<string, nat>, config: seq<Entry>, domain: string, queryType: string)
    requires LastWins(records, config) && NoBars(config) && forall k :: k in records ==> !Answers(k, domain, queryType)
    ensures forall i :: 0 <= i < |config| ==> !EntryAnswers(config[i], domain, queryType)
  {
    hide HostOf, TypeOf, Key, Answers, EntryAnswers, Cut, HostOfKey;
    forall i | 0 <= i < |config| ensures !EntryAnswers(config[i], domain, queryType) {
      EntryKey(records, config, i, domain, queryType);
    }
  }

  /* ---------- round robin ---------- */

  // Where a rotation over n items stands after some calls.
  function Position(calls: nat, n: nat): (r: nat)
    requires n > 0
    ensures r < n
  {
    if calls == 0 then 0 else
      var p := Position(calls - 1, n);
      if p + 1 == n then 0 else p + 1
  }

  class Rotation {
    const ips: seq<string>
    var index: nat
    ghost var calls: nat

    ghost predicate Valid()
      reads this
    {
      |ips| > 1 ==> index == Position(calls, |ips|)
    }

    constructor (ips: seq<string>)
      ensures Valid() && this.ips == ips && calls == 0
    {
      this.ips, index, calls := ips, 0, 0;
    }

    // getNextIP
    method Next() returns (ip: string)
      requires Valid()
      modifies this
      ensures Valid() && calls == old(calls) + 1
      ensures ip == if ips == [] then "" else ips[Position(old(calls), |ips|)]
    {
      calls := calls + 1;
      if ips == [] {
        return "";
      }
      if |ips| == 1 {
        return ips[0];
      }
      ip := ips[index];
      index := (index + 1) % |ips|;
    }
  }

  lemma {:induction false} PositionLater(c: nat, k: nat, n: nat)
    requires n > 0 && k <= n
    ensures Position(c + k, n) == if Position(c, n) + k < n then Position(c, n) + k else Position(c, n) + k - n
  {
    if k > 0 {
      PositionLater(c, k - 1, n);
    }
  }

  // Over as many calls as there are IPs, each is returned exactly once.
  lemma EveryIpOnce(c: nat, n: nat, p: nat) returns (m: nat)
    requires p < n
    ensures c <= m < c + n && Position(m, n) == p
    ensures forall j: nat :: c <= j < c + n && Position(j, n) == p ==> j == m
  {
    var s := Position(c, n);
    var k := if p >= s then p - s else p + n - s;
    m := c + k;
    PositionLater(c, k, n);
    forall j: nat | c <= j < c + n && Position(j, n) == p ensures j == m {
      PositionLater(c, j - c, n);
    }
  }
}
