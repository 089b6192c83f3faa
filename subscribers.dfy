/**
 * The SMS subscriber store: a JSON file `{subscribers: [...]}` read whole,
 * modified in memory and written back whole. The file is the `file` field of a
 * `SubscriberStore`; a file that does not parse reads as an empty store.
 */
module Subscribers {
  import opened Common

  datatype Subscriber = Subscriber(phone: string, name: string, subscribedAt: string)

  /** The file's contents: parsed JSON (whose `subscribers` key may be missing) or garbage. */
  datatype SubscriberFile = Parsed(subscribers: Option<seq<Subscriber>>) | Unparseable

  datatype SubscribeResult = AlreadySubscribed(phone: string) | NewSubscriber(record: Subscriber)

  datatype UnsubscribeResult = UnsubscribeResult(phone: string, removed: bool)

  datatype Status = NotSubscribed(phone: string) | SubscribedAs(record: Subscriber)

  const DefaultName := "Invitado"

  /** `readAll()` then `data.subscribers || []`. */
  function ReadRecords(file: SubscriberFile): seq<Subscriber>
  {
    match file
    case Unparseable => []
    case Parsed(subs) => if subs.Some? then subs.value else []
  }

  /** The position `subs.find(s => s.phone === phone)` stops at, or -1. */
  function FindPhoneIndex(subs: seq<Subscriber>, phone: string): (k: int)
    ensures -1 <= k < |subs|
    ensures k == -1 <==> forall i :: 0 <= i < |subs| ==> subs[i].phone != phone
    ensures k >= 0 ==> subs[k].phone == phone && forall j :: 0 <= j < k ==> subs[j].phone != phone
  {
    if subs == [] then -1
    else if subs[0].phone == phone then 0
    else
      var k := FindPhoneIndex(subs[1..], phone);
      if k == -1 then -1 else k + 1
  }

  /** `subs.find(s => s.phone === phone)`: the first record with that phone. */
  function FindPhone(subs: seq<Subscriber>, phone: string): (r: Option<Subscriber>)
    ensures r.None? <==> forall i :: 0 <= i < |subs| ==> subs[i].phone != phone
    ensures r.Some? ==> r.value in subs && r.value.phone == phone
  {
    var k := FindPhoneIndex(subs, phone);
    if k == -1 then None else Some(subs[k])
  }

  predicate HasPhone(subs: seq<Subscriber>, phone: string)
  {
    exists i :: 0 <= i < |subs| && subs[i].phone == phone
  }

  /** `subs.filter(s => s.phone !== phone)`. */
  function RemovePhone(subs: seq<Subscriber>, phone: string): (r: seq<Subscriber>)
    ensures |r| <= |subs|
    ensures forall i :: 0 <= i < |r| ==> r[i].phone != phone
    ensures forall x :: x in r <==> x in subs && x.phone != phone
  {
    if subs == [] then []
    else if subs[0].phone == phone then RemovePhone(subs[1..], phone)
    else [subs[0]] + RemovePhone(subs[1..], phone)
  }

  /** No two records share a phone. */
  predicate UniquePhones(subs: seq<Subscriber>)
  {
    forall i, j :: 0 <= i < j < |subs| ==> subs[i].phone != subs[j].phone
  }

  /** The record list after `subscribe(phone, name)` at time `now`. */
  function AfterSubscribe(subs: seq<Subscriber>, phone: string, name: string, now: string): seq<Subscriber>
  {
    if HasPhone(subs, phone) then subs else subs + [Subscriber(phone, name, now)]
  }

  // ---------------------------------------------------------------------------
  // Properties of the record list

  /** Without the phone, filtering changes nothing. */
  lemma {:induction false} RemovePhoneAbsent(subs: seq<Subscriber>, phone: string)
    requires !HasPhone(subs, phone)
    ensures RemovePhone(subs, phone) == subs
  {
    if subs != [] {
      var tail := subs[1..];
      forall i | 0 <= i < |tail| ensures tail[i].phone != phone {
        assert tail[i] == subs[i + 1];
      }
      RemovePhoneAbsent(tail, phone);
      assert subs[0].phone != phone;
      assert subs == [subs[0]] + tail;
    }
  }

  /** With the phone, filtering drops at least one record. */
  lemma {:induction false} RemovePhonePresent(subs: seq<Subscriber>, phone: string)
    requires HasPhone(subs, phone)
    ensures |RemovePhone(subs, phone)| < |subs|
  {
    var tail := subs[1..];
    if subs[0].phone != phone {
      var i :| 0 <= i < |subs| && subs[i].phone == phone;
      assert tail[i - 1].phone == phone;
      RemovePhonePresent(tail, phone);
    }
  }

  /** Filtering removes something exactly when the phone was present. */
  lemma RemovePhoneShrinksIffPresent(subs: seq<Subscriber>, phone: string)
    ensures |RemovePhone(subs, phone)| < |subs| <==> HasPhone(subs, phone)
    ensures !HasPhone(subs, phone) ==> RemovePhone(subs, phone) == subs
  {
    if HasPhone(subs, phone) {
      RemovePhonePresent(subs, phone);
    } else {
      RemovePhoneAbsent(subs, phone);
    }
  }

  /** Filtering keeps the surviving records in their original order. */
  lemma {:induction false} RemovePhoneKeepsOrder(subs: seq<Subscriber>, phone: string, rest: seq<Subscriber>)
    requires forall i :: 0 <= i < |rest| ==> rest[i].phone != phone
    ensures RemovePhone(subs + rest, phone) == RemovePhone(subs, phone) + rest
  {
    if subs == [] {
      assert subs + rest == rest;
      RemovePhoneNoop(rest, phone);
    } else {
      assert (subs + rest)[1..] == subs[1..] + rest;
      RemovePhoneKeepsOrder(subs[1..], phone, rest);
    }
  }

  lemma {:induction false} RemovePhoneNoop(subs: seq<Subscriber>, phone: string)
    requires forall i :: 0 <= i < |subs| ==> subs[i].phone != phone
    ensures RemovePhone(subs, phone) == subs
  {
    if subs != [] {
      RemovePhoneNoop(subs[1..], phone);
    }
  }

  /** Subscribing keeps phones unique. */
  lemma SubscribeKeepsPhonesUnique(subs: seq<Subscriber>, phone: string, name: string, now: string)
    requires UniquePhones(subs)
    ensures UniquePhones(AfterSubscribe(subs, phone, name, now))
  {
    if !HasPhone(subs, phone) {
      var r := AfterSubscribe(subs, phone, name, now);
      forall i, j | 0 <= i < j < |r| ensures r[i].phone != r[j].phone {
        if j == |subs| {
          assert subs[i].phone != phone;
        }
      }
    }
  }

  /** A record whose phone is not among the others keeps the phones unique in front of them. */
  lemma UniqueCons(x: Subscriber, rest: seq<Subscriber>)
    requires UniquePhones(rest)
    requires forall y :: y in rest ==> y.phone != x.phone
    ensures UniquePhones([x] + rest)
  {
    var r := [x] + rest;
    forall i, j | 0 <= i < j < |r| ensures r[i].phone != r[j].phone {
      assert r[j] == rest[j - 1];
      if i > 0 {
        assert r[i] == rest[i - 1];
      } else {
        assert rest[j - 1] in rest;
      }
    }
  }

  /** Unsubscribing keeps phones unique. */
  lemma {:induction false} UnsubscribeKeepsPhonesUnique(subs: seq<Subscriber>, phone: string)
    requires UniquePhones(subs)
    ensures UniquePhones(RemovePhone(subs, phone))
  {
    if subs != [] {
      var tail := subs[1..];
      assert UniquePhones(tail) by {
        forall i, j | 0 <= i < j < |tail| ensures tail[i].phone != tail[j].phone {
          assert tail[i] == subs[i + 1] && tail[j] == subs[j + 1];
        }
      }
      UnsubscribeKeepsPhonesUnique(tail, phone);
      if subs[0].phone != phone {
        var rest := RemovePhone(tail, phone);
        forall y | y in rest ensures y.phone != subs[0].phone {
          var k :| 0 <= k < |tail| && tail[k] == y;
          assert subs[k + 1] == y;
        }
        UniqueCons(subs[0], rest);
      }
    }
  }

  /** Subscribing twice is subscribing once, whatever name and time the second call brings. */
  lemma SubscribeIdempotent(subs: seq<Subscriber>, phone: string, n1: string, t1: string, n2: string, t2: string)
    ensures AfterSubscribe(AfterSubscribe(subs, phone, n1, t1), phone, n2, t2) == AfterSubscribe(subs, phone, n1, t1)
  {
    var once := AfterSubscribe(subs, phone, n1, t1);
    assert once[|once| - 1].phone == phone || HasPhone(subs, phone);
    if !HasPhone(subs, phone) {
      assert once[|subs|].phone == phone;
    }
  }

  /** After subscribe the phone is found; after unsubscribe it is not. */
  lemma StatusAfterUpdates(subs: seq<Subscriber>, phone: string, name: string, now: string)
    ensures FindPhone(AfterSubscribe(subs, phone, name, now), phone).Some?
    ensures FindPhone(RemovePhone(subs, phone), phone).None?
  {
    var after := AfterSubscribe(subs, phone, name, now);
    if !HasPhone(subs, phone) {
      assert after[|subs|].phone == phone;
    } else {
      var i :| 0 <= i < |subs| && subs[i].phone == phone;
      assert after[i].phone == phone;
    }
  }

  // ---------------------------------------------------------------------------
  // The store

  class SubscriberStore {
    var file: SubscriberFile

    function Records(): seq<Subscriber>
      reads this
    {
      ReadRecords(file)
    }

    constructor (initial: SubscriberFile)
      ensures file == initial
    {
      file := initial;
    }

    /** `getAll()`. */
    method GetAll() returns (subs: seq<Subscriber>)
      ensures file.Unparseable? ==> subs == []
      ensures file.Parsed? && file.subscribers.None? ==> subs == []
      ensures file.Parsed? && file.subscribers.Some? ==> subs == file.subscribers.value
    {
      subs := ReadRecords(file);
    }

    /** `isSubscribed(phone)`. */
    method IsSubscribed(phone: string) returns (b: bool)
      ensures b <==> exists i :: 0 <= i < |Records()| && Records()[i].phone == phone
    {
      var subs := GetAll();
      assert subs == Records();
      b := FindPhone(subs, phone).Some?;
    }

    /** `subscribe(phone, name = 'Invitado')` at time `now`. */
    method Subscribe(phone: string, name: Option<string>, now: string) returns (r: SubscribeResult)
      modifies this
      ensures var nm := if name.Some? then name.value else DefaultName;
        Records() == AfterSubscribe(old(Records()), phone, nm, now)
      ensures HasPhone(old(Records()), phone) ==> r == AlreadySubscribed(phone) && file == old(file)
      ensures !HasPhone(old(Records()), phone) ==>
        r == NewSubscriber(Subscriber(phone, if name.Some? then name.value else DefaultName, now))
        && file == Parsed(Some(old(Records()) + [r.record]))
      ensures UniquePhones(old(Records())) ==> UniquePhones(Records())
    {
      var nm := if name.Some? then name.value else DefaultName;
      var subs := GetAll();
      if UniquePhones(subs) {
        SubscribeKeepsPhonesUnique(subs, phone, nm, now);
      }
      if FindPhone(subs, phone).Some? {
        return AlreadySubscribed(phone);
      }
      var record := Subscriber(phone, nm, now);
      file := Parsed(Some(subs + [record]));
      r := NewSubscriber(record);
    }

    /** `unsubscribe(phone)`: the file is rewritten only when something was removed. */
    method Unsubscribe(phone: string) returns (r: UnsubscribeResult)
      modifies this
      ensures Records() == RemovePhone(old(Records()), phone)
      ensures r.phone == phone && (r.removed <==> HasPhone(old(Records()), phone))
      ensures !r.removed ==> file == old(file)
      ensures UniquePhones(old(Records())) ==> UniquePhones(Records())
    {
      var subs := GetAll();
      var filtered := RemovePhone(subs, phone);
      RemovePhoneShrinksIffPresent(subs, phone);
      if UniquePhones(subs) {
        UnsubscribeKeepsPhonesUnique(subs, phone);
      }
      var changed := |filtered| != |subs|;
      if changed {
        file := Parsed(Some(filtered));
      }
      r := UnsubscribeResult(phone, changed);
    }

    /** `getStatus(phone)`. */
    method GetStatus(phone: string) returns (s: Status)
      ensures s.SubscribedAs? <==> HasPhone(Records(), phone)
      ensures s.SubscribedAs? ==> s.record.phone == phone && s.record in Records()
      ensures s.SubscribedAs? ==> FindPhone(Records(), phone) == Some(s.record)
      ensures s.NotSubscribed? ==> s.phone == phone
    {
      var subs := GetAll();
      var found := FindPhone(subs, phone);
      if found.Some? {
        return SubscribedAs(found.value);
      }
      return NotSubscribed(phone);
    }
  }
}
