/** The line breaking object and its lifecycle: construction, reference
    counting, deep copy, reset and destruction. The host environment is a
    ghost record of the storage currently allocated and of every call to an
    object's reference-adjusting callback (ref_func). */
module Lifecycle {
  import opened Props

  /** An opaque pointer owned by the host: user data or a callback. */
  datatype HostPtr = Null | Addr(id: nat)

  /** The five host pointers that ref_func keeps track of
      (LINEBREAK_REF_STASH, _FORMAT, _SIZING, _URGENT, _USER). */
  datatype RefSlot = Stash | Format | Sizing | Urgent | User

  /** Position of a slot in the order in which the callbacks are issued. */
  function SlotOrder(s: RefSlot): nat {
    match s
    case Stash => 0
    case Format => 1
    case Sizing => 2
    case Urgent => 3
    case User => 4
  }

  /** The slots in the order in which the callbacks are issued. */
  const AllSlots: seq<RefSlot> := [Stash, Format, Sizing, Urgent, User]

  /** One call ref_func(data, slot, delta). */
  datatype RefCall = RefCall(func: HostPtr, data: HostPtr, slot: RefSlot, delta: int)

  /** An entry of the class override map (mapent_t); carried, never
      interpreted, by the code modelled here. */
  datatype MapEnt = MapEnt(beg: UniChar, end: UniChar, lbc: int, eaw: int, gbc: int, scr: int)

  /** An owned buffer: a pointer, null or an allocation, and a length
      (unistr_t; also the pair map/mapsiz). */
  datatype Buf<T> = Buf(str: array?<T>, len: nat) {

    /** Null with length 0, or an allocation holding at least len elements. */
    predicate WellFormed() {
      if str == null then len == 0 else len <= str.Length
    }

    /** The test `b.str && b.len` under which a copy allocates. */
    predicate Allocated() {
      str != null && len > 0
    }

    /** Allocations a copy of this buffer makes. */
    function Mallocs(): nat {
      if Allocated() then 1 else 0
    }

    function Storage(): set<object> {
      if str == null then {} else {str}
    }

    function Contents(): seq<T>
      reads str
      requires WellFormed()
    {
      if str == null then [] else str[..len]
    }
  }

  /** `d` is a copy of `b`: same length and contents, and allocated exactly
      when `b` holds something. */
  ghost predicate CopyOf<T>(d: Buf<T>, b: Buf<T>)
    reads d.str, b.str
    requires d.WellFormed() && b.WellFormed()
  {
    d.len == b.len && d.Contents() == b.Contents() && (d.str != null <==> b.Allocated())
  }

  /** No two of an object's five buffers share storage. */
  ghost predicate Disjoint(m: Buf<MapEnt>, nl: Buf<UniChar>, bs: Buf<UniChar>,
                           bp: Buf<UniChar>, ur: Buf<UniChar>)
  {
    m.Storage() !! nl.Storage() && m.Storage() !! bs.Storage() &&
    m.Storage() !! bp.Storage() && m.Storage() !! ur.Storage() &&
    nl.Storage() !! bs.Storage() && nl.Storage() !! bp.Storage() &&
    nl.Storage() !! ur.Storage() && bs.Storage() !! bp.Storage() &&
    bs.Storage() !! ur.Storage() && bp.Storage() !! ur.Storage()
  }

  /** The fields of an object other than its reference count and its
      buffers: state, column settings, options, the host pointers and the
      callbacks. */
  datatype ObjectSettings = ObjectSettings(state: int, bufcols: int, charmax: nat, colmax: int, colmin: int,
                                           options: nat, data: seq<HostPtr>, funcs: seq<HostPtr>)

  /** The host environment, as far as this code touches it: the storage
      allocated and not yet released, and every ref_func call made so far, in
      order. The operations thread it through as ghost state. */
  datatype Host = Host(live: set<object>, refLog: seq<RefCall>)

  /** Duplicates a buffer that holds something into fresh storage. */
  method Duplicate<T>(b: Buf<T>, ghost h: Host) returns (d: Buf<T>, ghost h': Host)
    requires b.WellFormed() && b.Allocated()
    ensures d.WellFormed() && d.str != null && fresh(d.str)
    ensures CopyOf(d, b)
    ensures h' == h.(live := h.live + {d.str})
  {
    var src: array<T> := b.str;
    var a := new T[b.len](i requires 0 <= i < b.len reads src => src[i]);
    d := Buf(a, b.len);
    h' := h.(live := h.live + {a});
  }

  /** One step of the deep copy: duplicates `b` unless it is empty, where the
      allocation numbered `allocs` fails if `allocs == failAt`. On that
      failure the storage `made` by the earlier steps is released. */
  method CopyBuf<T>(b: Buf<T>, ghost h: Host, allocs: nat, failAt: nat, ghost made: set<object>)
    returns (d: Buf<T>, ok: bool, next: nat, ghost h': Host)
    requires b.WellFormed() && allocs <= failAt
    ensures ok <==> !(b.Allocated() && allocs == failAt)
    ensures !ok ==> h' == h.(live := h.live - made)
    ensures ok ==> next == allocs + b.Mallocs() && next <= failAt
    ensures ok ==> d.WellFormed() && CopyOf(d, b) && fresh(d.Storage())
    ensures ok ==> h' == h.(live := h.live + d.Storage())
  {
    if b.Allocated() {
      if allocs == failAt {
        return Buf(null, 0), false, allocs, h.(live := h.live - made);
      }
      d, h' := Duplicate(b, h);
      return d, true, allocs + 1, h';
    }
    return Buf(null, b.len), true, allocs, h;
  }

  /** A line breaking object (linebreak_t). Column counts, which the source
      keeps as doubles, are integers here. */
  class LineBreak {
    var refcount: nat
    var state: int
    var bufstr: Buf<UniChar>
    var bufspc: Buf<UniChar>
    var bufcols: int
    var unread: Buf<UniChar>
    var charmax: nat
    var colmax: int
    var colmin: int
    var overrideMap: Buf<MapEnt>  // map, mapsiz
    var newline: Buf<UniChar>
    var options: nat
    var formatData: HostPtr
    var sizingData: HostPtr
    var urgentData: HostPtr
    var userData: HostPtr
    var stash: HostPtr
    var formatFunc: HostPtr
    var sizingFunc: HostPtr
    var urgentFunc: HostPtr
    var userFunc: HostPtr
    var refFunc: HostPtr

    /** A live object: referenced at least once, its buffers well formed and
        owned exclusively (no two share storage). */
    ghost predicate Valid()
      reads this
    {
      refcount >= 1 &&
      overrideMap.WellFormed() && newline.WellFormed() && bufstr.WellFormed() &&
      bufspc.WellFormed() && unread.WellFormed() &&
      Disjoint(overrideMap, newline, bufstr, bufspc, unread)
    }

    /** The storage the object owns besides itself. */
    function Owned(): set<object>
      reads this
    {
      overrideMap.Storage() + newline.Storage() + bufstr.Storage() + bufspc.Storage() + unread.Storage()
    }

    /** The defaults of initlbobj. */
    predicate Initial()
      reads this
    {
      refcount == 1 && state == StateNone &&
      bufstr == Buf(null, 0) && bufspc == Buf(null, 0) && bufcols == 0 &&
      unread == Buf(null, 0) && charmax == 0 && colmax == 998 && colmin == 0 &&
      overrideMap == Buf(null, 0) && newline == Buf(null, 0) && options == 0 &&
      formatData == Null && sizingData == Null && urgentData == Null &&
      userData == Null && stash == Null &&
      formatFunc == Null && sizingFunc == Null && urgentFunc == Null &&
      userFunc == Null && refFunc == Null
    }

    /** Every field other than the reference count and the buffers. */
    function Settings(): ObjectSettings
      reads this
    {
      ObjectSettings(state, bufcols, charmax, colmax, colmin, options,
                     [formatData, sizingData, urgentData, userData, stash],
                     [formatFunc, sizingFunc, urgentFunc, userFunc, refFunc])
    }

    /** This object is a deep copy of `o`. */
    ghost predicate Duplicates(o: LineBreak)
      reads this, o, Owned(), o.Owned()
      requires Valid() && o.Valid()
    {
      Settings() == o.Settings() &&
      CopyOf(overrideMap, o.overrideMap) && CopyOf(newline, o.newline) && CopyOf(bufstr, o.bufstr) &&
      CopyOf(bufspc, o.bufspc) && CopyOf(unread, o.unread)
    }

    /** Allocations a successful copy makes: the object and each non-empty
        buffer. */
    function Mallocs(): nat
      reads this
    {
      1 + overrideMap.Mallocs() + newline.Mallocs() + bufstr.Mallocs() + bufspc.Mallocs() +
      unread.Mallocs()
    }

    /** The host pointer held in a slot. */
    function SlotData(s: RefSlot): HostPtr
      reads this`stash, this`formatData, this`sizingData, this`urgentData, this`userData
    {
      match s
      case Stash => stash
      case Format => formatData
      case Sizing => sizingData
      case Urgent => urgentData
      case User => userData
    }

    /** The ref_func call for one slot, if its pointer is set. */
    function RefCallFor(s: RefSlot, delta: int): seq<RefCall>
      reads this`stash, this`formatData, this`sizingData, this`urgentData, this`userData, this`refFunc
    {
      if SlotData(s) == Null then [] else [RefCall(refFunc, SlotData(s), s, delta)]
    }

    /** The ref_func calls for a list of slots, in list order. */
    function RefCallsFrom(slots: seq<RefSlot>, delta: int): seq<RefCall>
      reads this`stash, this`formatData, this`sizingData, this`urgentData, this`userData, this`refFunc
    {
      if slots == [] then [] else RefCallFor(slots[0], delta) + RefCallsFrom(slots[1..], delta)
    }

    /** The ref_func calls that announce (delta +1) or withdraw (delta -1)
        this object's references to the host pointers. */
    function RefCalls(delta: int): seq<RefCall>
      reads this`stash, this`formatData, this`sizingData, this`urgentData, this`userData, this`refFunc
    {
      if refFunc == Null then [] else RefCallsFrom(AllSlots, delta)
    }

    /** Each call for a list of slots is for a slot of the list whose pointer
        is set, and carries that pointer. */
    lemma {:induction false} RefCallsFromSlots(slots: seq<RefSlot>, delta: int)
      ensures forall c :: c in RefCallsFrom(slots, delta) ==>
                c.slot in slots && SlotData(c.slot) != Null &&
                c == RefCall(refFunc, SlotData(c.slot), c.slot, delta)
    {
      if slots != [] {
        RefCallsFromSlots(slots[1..], delta);
        assert RefCallsFrom(slots, delta) == RefCallFor(slots[0], delta) + RefCallsFrom(slots[1..], delta);
        forall c | c in RefCallsFrom(slots[1..], delta)
          ensures c.slot in slots
        {
          var k :| 0 <= k < |slots[1..]| && slots[1..][k] == c.slot;
          assert slots[k + 1] == c.slot;
        }
      }
    }

    /** Every slot of the list whose pointer is set gets its call. */
    lemma {:induction false} RefCallsFromCovers(slots: seq<RefSlot>, delta: int, s: RefSlot)
      requires s in slots && SlotData(s) != Null
      ensures exists c :: c in RefCallsFrom(slots, delta) && c.slot == s
    {
      var head := RefCallFor(slots[0], delta);
      assert RefCallsFrom(slots, delta) == head + RefCallsFrom(slots[1..], delta);
      if s == slots[0] {
        assert head[0] in RefCallsFrom(slots, delta);
      } else {
        assert s in slots[1..];
        RefCallsFromCovers(slots[1..], delta, s);
        var c :| c in RefCallsFrom(slots[1..], delta) && c.slot == s;
        assert c in RefCallsFrom(slots, delta);
      }
    }

    /** For a list of slots in callback order, the calls are in slot order. */
    lemma {:induction false} RefCallsFromOrdered(slots: seq<RefSlot>, delta: int)
      requires forall i, j :: 0 <= i < j < |slots| ==> SlotOrder(slots[i]) < SlotOrder(slots[j])
      ensures forall i, j :: 0 <= i < j < |RefCallsFrom(slots, delta)| ==>
                SlotOrder(RefCallsFrom(slots, delta)[i].slot) < SlotOrder(RefCallsFrom(slots, delta)[j].slot)
    {
      if slots != [] {
        var head, tail := RefCallFor(slots[0], delta), slots[1..];
        RefCallsFromOrdered(tail, delta);
        RefCallsFromSlots(tail, delta);
        var rest := RefCallsFrom(tail, delta);
        var calls := RefCallsFrom(slots, delta);
        assert calls == head + rest;
        forall c | c in rest
          ensures SlotOrder(slots[0]) < SlotOrder(c.slot)
        {
          var k :| 0 <= k < |tail| && tail[k] == c.slot;
          assert slots[k + 1] == tail[k];
        }
        forall i, j | 0 <= i < j < |calls|
          ensures SlotOrder(calls[i].slot) < SlotOrder(calls[j].slot)
        {
          if i >= |head| {
            assert calls[i] == rest[i - |head|] && calls[j] == rest[j - |head|];
          } else {
            assert calls[i].slot == slots[0];
            assert calls[j] in rest;
          }
        }
      }
    }

    /** ref_func is called once for each non-null host pointer, and only when
        it is set, in slot order, each time with that pointer and `delta`. */
    lemma RefCallsOncePerSlot(delta: int)
      ensures forall i, j :: 0 <= i < j < |RefCalls(delta)| ==>
                SlotOrder(RefCalls(delta)[i].slot) < SlotOrder(RefCalls(delta)[j].slot)
      ensures forall s: RefSlot ::
                (exists c :: c in RefCalls(delta) && c.slot == s) <==>
                refFunc != Null && SlotData(s) != Null
      ensures forall c :: c in RefCalls(delta) ==>
                c == RefCall(refFunc, SlotData(c.slot), c.slot, delta)
    {
      if refFunc != Null {
        assert RefCalls(delta) == RefCallsFrom(AllSlots, delta);
        forall i, j | 0 <= i < j < |AllSlots|
          ensures SlotOrder(AllSlots[i]) < SlotOrder(AllSlots[j])
        {
        }
        RefCallsFromOrdered(AllSlots, delta);
        RefCallsFromSlots(AllSlots, delta);
        forall s: RefSlot
          ensures s in AllSlots
        {
          match s
          case Stash => assert AllSlots[0] == s;
          case Format => assert AllSlots[1] == s;
          case Sizing => assert AllSlots[2] == s;
          case Urgent => assert AllSlots[3] == s;
          case User => assert AllSlots[4] == s;
        }
        forall s: RefSlot | SlotData(s) != Null
          ensures exists c :: c in RefCalls(delta) && c.slot == s
        {
          RefCallsFromCovers(AllSlots, delta, s);
        }
      } else {
        assert RefCalls(delta) == [];
      }
    }

    /** RefCalls written out slot by slot. */
    lemma RefCallsUnfold(delta: int)
      requires refFunc != Null
      ensures RefCalls(delta) == RefCallFor(Stash, delta) + RefCallFor(Format, delta) +
                RefCallFor(Sizing, delta) + RefCallFor(Urgent, delta) + RefCallFor(User, delta)
    {
      var a, b, c, d, e := RefCallFor(Stash, delta), RefCallFor(Format, delta),
                           RefCallFor(Sizing, delta), RefCallFor(Urgent, delta),
                           RefCallFor(User, delta);
      assert [User][1..] == [];
      assert RefCallsFrom([User], delta) == e;
      assert [Urgent, User][1..] == [User];
      assert RefCallsFrom([Urgent, User], delta) == d + e;
      assert [Sizing, Urgent, User][1..] == [Urgent, User];
      assert RefCallsFrom([Sizing, Urgent, User], delta) == c + (d + e);
      assert [Format, Sizing, Urgent, User][1..] == [Sizing, Urgent, User];
      assert RefCallsFrom([Format, Sizing, Urgent, User], delta) == b + (c + (d + e));
      assert AllSlots[1..] == [Format, Sizing, Urgent, User];
      assert RefCallsFrom(AllSlots, delta) == a + (b + (c + (d + e)));
      assert a + (b + (c + (d + e))) == a + b + c + d + e;
    }

    /** Objects with the same host pointers and the same ref_func make the same
        ref_func calls. */
    lemma RefCallsAgree(o: LineBreak, delta: int)
      requires stash == o.stash && formatData == o.formatData && sizingData == o.sizingData &&
               urgentData == o.urgentData && userData == o.userData && refFunc == o.refFunc
      ensures RefCalls(delta) == o.RefCalls(delta)
    {
      if refFunc != Null {
        RefCallsUnfold(delta);
        o.RefCallsUnfold(delta);
      }
    }

    /** The object with the initlbobj defaults (the memcpy of linebreak_new). */
    constructor ()
      ensures Initial() && Valid()
    {
      refcount := 1;
      state := StateNone;
      bufstr := Buf(null, 0);
      bufspc := Buf(null, 0);
      bufcols := 0;
      unread := Buf(null, 0);
      charmax := 0;
      colmax := 998;
      colmin := 0;
      overrideMap := Buf(null, 0);
      newline := Buf(null, 0);
      options := 0;
      formatData, sizingData, urgentData, userData, stash := Null, Null, Null, Null, Null;
      formatFunc, sizingFunc, urgentFunc, userFunc, refFunc := Null, Null, Null, Null, Null;
    }

    /** linebreak_new. `mallocFails` stands for the allocation of the object
        failing. */
    static method New(ghost h: Host, mallocFails: bool) returns (r: LineBreak?, ghost h': Host)
      ensures mallocFails ==> r == null && h' == h
      ensures !mallocFails ==> r != null && fresh(r) && r.Initial() && r.Valid()
      ensures !mallocFails ==> h' == h.(live := h.live + {r})
    {
      if mallocFails {
        return null, h;
      }
      r := new LineBreak();
      h' := h.(live := h.live + {r});
    }

    /** linebreak_incref: one more reference, the same object. */
    method Incref() returns (r: LineBreak)
      requires Valid()
      modifies this`refcount
      ensures r == this && refcount == old(refcount) + 1 && Valid()
    {
      refcount := refcount + 1;
      r := this;
    }

    /** The memcpy of linebreak_copy, with the duplicated buffers put in
        place and the reference count set to 1. */
    constructor Clone(o: LineBreak, m: Buf<MapEnt>, nl: Buf<UniChar>, bs: Buf<UniChar>,
                      bp: Buf<UniChar>, ur: Buf<UniChar>)
      requires o.Valid()
      requires m.WellFormed() && nl.WellFormed() && bs.WellFormed() && bp.WellFormed() && ur.WellFormed()
      requires CopyOf(m, o.overrideMap) && CopyOf(nl, o.newline) && CopyOf(bs, o.bufstr) &&
               CopyOf(bp, o.bufspc) && CopyOf(ur, o.unread)
      requires Disjoint(m, nl, bs, bp, ur)
      ensures Valid() && refcount == 1 && Duplicates(o)
      ensures Owned() == m.Storage() + nl.Storage() + bs.Storage() + bp.Storage() + ur.Storage()
    {
      refcount := 1;
      state, bufcols, charmax, colmax, colmin, options :=
        o.state, o.bufcols, o.charmax, o.colmax, o.colmin, o.options;
      formatData, sizingData, urgentData, userData, stash :=
        o.formatData, o.sizingData, o.urgentData, o.userData, o.stash;
      formatFunc, sizingFunc, urgentFunc, userFunc, refFunc :=
        o.formatFunc, o.sizingFunc, o.urgentFunc, o.userFunc, o.refFunc;
      overrideMap, newline, bufstr, bufspc, unread := m, nl, bs, bp, ur;
    }

    /** The last three steps of the buffer duplication of linebreak_copy:
        bufstr, bufspc and unread, numbering allocations from `allocs`. A
        failure releases what was duplicated before it, `made` included. */
    method CopyFromBufstr(ghost h: Host, allocs: nat, failAt: nat, ghost made: set<object>)
      returns (ok: bool, bs: Buf<UniChar>, bp: Buf<UniChar>, ur: Buf<UniChar>, ghost h': Host)
      requires Valid() && allocs <= failAt
      ensures ok <==> allocs + bufstr.Mallocs() + bufspc.Mallocs() + unread.Mallocs() <= failAt
      ensures !ok ==> h' == h.(live := h.live - made)
      ensures ok ==> bs.WellFormed() && bp.WellFormed() && ur.WellFormed()
      ensures ok ==> CopyOf(bs, bufstr) && CopyOf(bp, bufspc) && CopyOf(ur, unread)
      ensures ok ==> fresh(bs.Storage() + bp.Storage() + ur.Storage())
      ensures ok ==> bs.Storage() !! bp.Storage() && bs.Storage() !! ur.Storage() &&
                     bp.Storage() !! ur.Storage()
      ensures ok ==> h' == h.(live := h.live + (bs.Storage() + bp.Storage() + ur.Storage()))
    {
      bp, ur := Buf(null, 0), Buf(null, 0);
      var next;
      bs, ok, next, h' := CopyBuf(bufstr, h, allocs, failAt, made);
      if !ok {
        return;
      }
      bp, ok, next, h' := CopyBuf(bufspc, h', next, failAt, made + bs.Storage());
      if !ok {
        return;
      }
      ur, ok, next, h' := CopyBuf(unread, h', next, failAt, made + bs.Storage() + bp.Storage());
    }

    /** The last four steps of the buffer duplication of linebreak_copy,
        newline first; see CopyFromBufstr. */
    method CopyFromNewline(ghost h: Host, allocs: nat, failAt: nat, ghost made: set<object>)
      returns (ok: bool, nl: Buf<UniChar>, bs: Buf<UniChar>, bp: Buf<UniChar>, ur: Buf<UniChar>,
               ghost h': Host)
      requires Valid() && allocs <= failAt
      ensures ok <==> allocs + newline.Mallocs() + bufstr.Mallocs() + bufspc.Mallocs() +
                      unread.Mallocs() <= failAt
      ensures !ok ==> h' == h.(live := h.live - made)
      ensures ok ==> nl.WellFormed() && bs.WellFormed() && bp.WellFormed() && ur.WellFormed()
      ensures ok ==> CopyOf(nl, newline) && CopyOf(bs, bufstr) && CopyOf(bp, bufspc) &&
                     CopyOf(ur, unread)
      ensures ok ==> fresh(nl.Storage() + bs.Storage() + bp.Storage() + ur.Storage())
      ensures ok ==> nl.Storage() !! bs.Storage() && nl.Storage() !! bp.Storage() &&
                     nl.Storage() !! ur.Storage() && bs.Storage() !! bp.Storage() &&
                     bs.Storage() !! ur.Storage() && bp.Storage() !! ur.Storage()
      ensures ok ==> h' == h.(live := h.live + (nl.Storage() + bs.Storage() + bp.Storage() +
                                                ur.Storage()))
    {
      bs, bp, ur := Buf(null, 0), Buf(null, 0), Buf(null, 0);
      var next;
      nl, ok, next, h' := CopyBuf(newline, h, allocs, failAt, made);
      if !ok {
        return;
      }
      ok, bs, bp, ur, h' := CopyFromBufstr(h', next, failAt, made + nl.Storage());
    }

    /** The buffer duplication of linebreak_copy, allocation numbers 1 to 5,
        with the source's rollback: a failure releases what was duplicated
        before it. */
    method CopyBuffers(ghost h: Host, failAt: nat)
      returns (ok: bool, m: Buf<MapEnt>, nl: Buf<UniChar>, bs: Buf<UniChar>,
               bp: Buf<UniChar>, ur: Buf<UniChar>, ghost h': Host)
      requires Valid() && 1 <= failAt
      ensures ok <==> Mallocs() <= failAt
      ensures !ok ==> h' == h
      ensures ok ==> m.WellFormed() && nl.WellFormed() && bs.WellFormed() &&
                     bp.WellFormed() && ur.WellFormed()
      ensures ok ==> CopyOf(m, overrideMap) && CopyOf(nl, newline) && CopyOf(bs, bufstr) &&
                     CopyOf(bp, bufspc) && CopyOf(ur, unread)
      ensures ok ==> fresh(m.Storage() + nl.Storage() + bs.Storage() + bp.Storage() + ur.Storage())
      ensures ok ==> Disjoint(m, nl, bs, bp, ur)
      ensures ok ==> h' == h.(live := h.live + (m.Storage() + nl.Storage() + bs.Storage() +
                                                bp.Storage() + ur.Storage()))
    {
      nl, bs, bp, ur := Buf(null, 0), Buf(null, 0), Buf(null, 0), Buf(null, 0);
      var next;
      m, ok, next, h' := CopyBuf(overrideMap, h, 1, failAt, {});
      if !ok {
        return;
      }
      ok, nl, bs, bp, ur, h' := CopyFromNewline(h', next, failAt, m.Storage());
      if ok {
        Regroup(h.live, m.Storage(), nl.Storage(), bs.Storage(), bp.Storage(), ur.Storage());
      }
    }

    /** linebreak_copy. The allocations it makes are numbered from 0 (the
        object itself, then the map, newline, bufstr, bufspc and unread that
        hold something); `failAt` is the number of the first one that fails.
        On failure everything allocated for the copy is released and no
        ref_func call is made. The object's storage is requested first, as in
        the source; the object itself is assembled once its buffers exist. */
    method Copy(ghost h: Host, failAt: nat) returns (r: LineBreak?, ghost h': Host)
      requires Valid()
      ensures r == null <==> failAt < Mallocs()
      ensures r == null ==> h' == h
      ensures r != null ==> fresh(r) && fresh(r.Owned()) && r.Valid() && r.refcount == 1
      ensures r != null ==> r.Duplicates(this)
      ensures r != null ==> h' == Host(h.live + r.Owned() + {r}, h.refLog + RefCalls(1))
    {
      if failAt == 0 {
        return null, h;
      }
      var ok, m, nl, bs, bp, ur;
      ok, m, nl, bs, bp, ur, h' := CopyBuffers(h, failAt);
      if !ok {
        return null, h;
      }
      r := new LineBreak.Clone(this, m, nl, bs, bp, ur);
      h' := h'.(live := h'.live + {r});
      h' := h'.(refLog := h'.refLog + r.RefCalls(1));   // ref_func(..., +1)
      r.RefCallsAgree(this, 1);
    }

    /** linebreak_destroy: drops one reference; the last one releases the
        object, the map, the newline, bufstr and unread (but not bufspc) and
        withdraws the host pointers' references. */
    static method Destroy(obj: LineBreak?, ghost h: Host) returns (ghost h': Host)
      requires obj != null ==> obj.Valid()
      modifies {obj}`refcount
      ensures obj == null ==> h' == h
      ensures obj != null ==> obj.refcount == old(obj.refcount) - 1
      ensures obj != null && obj.refcount != 0 ==> h' == h && obj.Valid()
      ensures obj != null && obj.refcount == 0 ==>
                h' == Host(h.live - ({obj} + obj.overrideMap.Storage() + obj.newline.Storage() +
                                     obj.bufstr.Storage() + obj.unread.Storage()),
                           h.refLog + old(obj.RefCalls(-1)))
      ensures obj != null && obj.refcount == 0 ==> obj.bufspc.Storage() * h.live <= h'.live
    {
      if obj == null {
        return h;
      }
      obj.refcount := obj.refcount - 1;
      if obj.refcount != 0 {
        return h;
      }
      h' := h.(live := h.live - obj.overrideMap.Storage() - obj.newline.Storage() -
                       obj.bufstr.Storage() - obj.unread.Storage());
      h' := h'.(refLog := h'.refLog + obj.RefCalls(-1));   // ref_func(..., -1)
      h' := h'.(live := h'.live - {obj});
    }

    /** linebreak_reset: releases unread, bufstr and bufspc and returns the
        object to state NONE; the settings are left as they are. */
    static method Reset(obj: LineBreak?, ghost h: Host) returns (ghost h': Host)
      requires obj != null ==> obj.Valid()
      modifies {obj}`unread, {obj}`bufstr, {obj}`bufspc, {obj}`bufcols, {obj}`state
      ensures obj == null ==> h' == h
      ensures obj != null ==>
                obj.Valid() &&
                obj.unread == Buf(null, 0) && obj.bufstr == Buf(null, 0) &&
                obj.bufspc == Buf(null, 0) && obj.bufcols == 0 && obj.state == StateNone
      ensures obj != null ==>
                h' == h.(live := h.live - old(obj.unread.Storage() + obj.bufstr.Storage() +
                                              obj.bufspc.Storage()))
    {
      if obj == null {
        return h;
      }
      h' := h.(live := h.live - obj.unread.Storage());
      obj.unread := Buf(null, 0);
      h' := h'.(live := h'.live - obj.bufstr.Storage());
      obj.bufstr := Buf(null, 0);
      h' := h'.(live := h'.live - obj.bufspc.Storage());
      obj.bufspc := Buf(null, 0);
      obj.bufcols := 0;
      obj.state := StateNone;
    }
  }

  /** Taking a reference and dropping it again changes nothing and releases
      nothing. */
  method RetainThenRelease(obj: LineBreak, ghost h: Host) returns (ghost h': Host)
    requires obj.Valid()
    modifies obj`refcount
    ensures obj.refcount == old(obj.refcount) && obj.Valid() && h' == h
  {
    var same := obj.Incref();
    h' := LineBreak.Destroy(same, h);
  }

  /** Destroying a fresh copy withdraws exactly the references the copy
      announced; of its storage only the copy of bufspc stays allocated. */
  method CopyThenDestroy(obj: LineBreak, ghost h: Host, failAt: nat)
    returns (ghost copy: LineBreak?, ghost h': Host, ghost leaked: set<object>)
    requires obj.Valid()
    ensures copy == null <==> failAt < old(obj.Mallocs())
    ensures copy == null ==> h' == h && leaked == {}
    ensures copy != null ==>
              fresh(copy) && leaked == copy.bufspc.Storage() &&
              h'.live == h.live + leaked && fresh(leaked) &&
              |leaked| == old(obj.bufspc.Mallocs())
    ensures copy != null ==>
              h'.refLog == h.refLog + old(obj.RefCalls(1)) + old(obj.RefCalls(-1))
  {
    ghost var up, down := obj.RefCalls(1), obj.RefCalls(-1);
    var c;
    c, h' := obj.Copy(h, failAt);
    copy := c;
    if c == null {
      return c, h', {};
    }
    assert h'.refLog == h.refLog + up;
    c.RefCallsAgree(obj, -1);
    h' := ReleaseCopy(c, h, h', down);
    leaked := c.bufspc.Storage();
  }

  /** The last reference to a fresh copy, dropped: of the copy's storage only
      its bufspc stays allocated on top of what was allocated before the copy,
      and the copy's -1 calls, `down`, are logged. */
  method ReleaseCopy(c: LineBreak, ghost h0: Host, ghost h: Host, ghost down: seq<RefCall>)
    returns (ghost h': Host)
    requires c.Valid() && c.refcount == 1 && c.RefCalls(-1) == down
    requires h0.live !! c.Owned() + {c}
    requires h.live == h0.live + c.Owned() + {c}
    modifies c`refcount
    ensures c.refcount == 0
    ensures h'.live == h0.live + c.bufspc.Storage()
    ensures h'.refLog == h.refLog + down
  {
    ghost var m, nl, bs, bp, ur := c.overrideMap.Storage(), c.newline.Storage(), c.bufstr.Storage(),
                                   c.bufspc.Storage(), c.unread.Storage();
    ReleaseAllBut(h0.live, m, nl, bs, bp, ur, c);
    h' := LineBreak.Destroy(c, h);
  }

  /** Adding a set and then four more adds their union. */
  lemma Regroup(x: set<object>, a: set<object>, b: set<object>, c: set<object>, d: set<object>,
                e: set<object>)
    ensures a + b + c + d + e == a + (b + c + d + e)
    ensures x + a + (b + c + d + e) == x + (a + b + c + d + e)
  {
  }

  /** Releasing an object and all its storage but `kept` from the storage
      allocated for it leaves `kept` allocated on top of what was there. */
  lemma ReleaseAllBut(live: set<object>, m: set<object>, nl: set<object>, bs: set<object>,
                      kept: set<object>, ur: set<object>, o: object)
    requires live !! m + nl + bs + kept + ur + {o}
    requires kept !! m + nl + bs + ur + {o}
    ensures (live + (m + nl + bs + kept + ur) + {o}) - ({o} + m + nl + bs + ur) == live + kept
  {
  }
}
