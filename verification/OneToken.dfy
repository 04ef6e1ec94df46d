/** Every exchange in flight has exactly one packet queued somewhere, and that packet tells what the
    id table and the peer hold. */
module OneToken {
  import opened Bytes
  import opened Exchange
  import opened Session

  /** The exchange still owns its id. */
  predicate Owns(t: Tok) {
    t.kind == Qos2Publish ==> t.left >= 4
  }

  /** The peer holds the message: after its PUBREC, before the first PUBREL is taken. */
  predicate HeldByPeer(t: Tok) {
    t.kind == Qos2Publish && 5 <= t.left <= 7
  }

  /** Table and peer agree with the packet in flight under an id, if there is one. */
  predicate Settled(id: u16, token: Option<Tok>, used: map<u16, Entry>, held: map<u16, Sent>, sending: bool) {
    match token
    case Some(t) =>
      && (Owns(t) <==> id in used)
      && (id in used ==> used[id].tag == t.tag && OfKind(used[id].packet, t.kind))
      && (HeldByPeer(t) <==> id in held)
      && (id in held ==> held[id].mark == Call(t.tag))
    case None => id !in held && (sending ==> id !in used)
  }

  ghost predicate OnePerId(f: multiset<Tok>, used: map<u16, Entry>, held: map<u16, Sent>, sending: bool) {
    && (forall t :: t in f ==> f[t] == 1)
    && (forall t, u :: t in f && u in f && t.id == u.id ==> t == u)
    && (forall t :: t in f ==> Settled(t.id, Some(t), used, held, sending))
    && (forall id: u16 :: Absent(f, id) ==> Settled(id, None, used, held, sending))
  }

  predicate SameElsewhere<V(==)>(id: u16, m: map<u16, V>, m': map<u16, V>) {
    forall i: u16 :: i != id ==> (i in m <==> i in m') && (i in m ==> m'[i] == m[i])
  }

  lemma Moves(f: multiset<Tok>, f': multiset<Tok>, t: Tok, t': Option<Tok>,
              used: map<u16, Entry>, used': map<u16, Entry>, held: map<u16, Sent>, held': map<u16, Sent>,
              sending: bool, sending': bool)
    requires OnePerId(f, used, held, sending) && t in f
    requires f' == f - multiset{t} + One(t') && (t'.Some? ==> t'.value.id == t.id)
    requires SameElsewhere(t.id, used, used') && SameElsewhere(t.id, held, held')
    requires sending' ==> sending
    requires Settled(t.id, t', used', held', sending')
    ensures OnePerId(f', used', held', sending')
  {
    hide Settled;
    MovesMembers(f, f', t, t');
    forall u | u in f' ensures Settled(u.id, Some(u), used', held', sending') {
      if Some(u) != t' {
        SettledElsewhere(t.id, u.id, Some(u), used, used', held, held', sending, sending');
      }
    }
    forall id: u16 | Absent(f', id) ensures Settled(id, None, used', held', sending') {
      if id == t.id {
        assert t' == None by { AbsentNone(f', t'); }
      } else {
        assert Absent(f, id);
        SettledElsewhere(t.id, id, None, used, used', held, held', sending, sending');
      }
    }
  }

  lemma AbsentNone(f: multiset<Tok>, t: Option<Tok>)
    requires One(t) <= f
    ensures t.Some? ==> !Absent(f, t.value.id)
  {
    if t.Some? {
      assert t.value in f;
    }
  }

  lemma MovesMembers(f: multiset<Tok>, f': multiset<Tok>, t: Tok, t': Option<Tok>)
    requires t in f && forall u :: u in f ==> f[u] == 1
    requires forall u, v :: u in f && v in f && u.id == v.id ==> u == v
    requires f' == f - multiset{t} + One(t') && (t'.Some? ==> t'.value.id == t.id)
    ensures forall u :: u in f' <==> (u in f && u != t) || Some(u) == t'
    ensures forall u :: u in f' ==> f'[u] == 1
    ensures forall u, v :: u in f' && v in f' && u.id == v.id ==> u == v
  {
    var rest := f - multiset{t};
    assert forall u :: rest[u] == if u == t then 0 else f[u];
    match t'
    case None => assert f' == rest;
    case Some(v) =>
      assert f' == rest + multiset{v};
      assert v !in rest;
  }

  lemma SettledElsewhere(at: u16, id: u16, token: Option<Tok>, used: map<u16, Entry>, used': map<u16, Entry>,
                         held: map<u16, Sent>, held': map<u16, Sent>, sending: bool, sending': bool)
    requires id != at && Settled(id, token, used, held, sending)
    requires SameElsewhere(at, used, used') && SameElsewhere(at, held, held')
    requires sending' ==> sending
    ensures Settled(id, token, used', held', sending')
  {
  }

  lemma Enters(f: multiset<Tok>, t: Tok, used: map<u16, Entry>, used': map<u16, Entry>,
               held: map<u16, Sent>, sending: bool)
    requires OnePerId(f, used, held, sending) && Absent(f, t.id)
    requires SameElsewhere(t.id, used, used')
    requires Settled(t.id, Some(t), used', held, sending)
    ensures OnePerId(f + multiset{t}, used', held, sending)
  {
    var f' := f + multiset{t};
    assert t in f' && t !in f;
    forall u | u in f' ensures f'[u] == 1 && Settled(u.id, Some(u), used', held, sending) {
    }
    forall id: u16 | Absent(f', id) ensures Settled(id, None, used', held, sending) {
      assert id != t.id && Absent(f, id);
    }
  }

  lemma Stays(f: multiset<Tok>, used: map<u16, Entry>, held: map<u16, Sent>, sending: bool, sending': bool)
    requires OnePerId(f, used, held, sending) && (sending' ==> sending)
    ensures OnePerId(f, used, held, sending')
  {
  }
}
