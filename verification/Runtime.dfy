/**
 The objects the operator's code works on in place: the API client and its own copy of a custom resource. A call
 that reads or writes a resource decodes the server's answer back into the copy.
 */
module Runtime {
  import opened Cluster
  import opened Helper

  /** A custom resource in memory. */
  class Instance {
    var uid: nat
    var version: nat
    var spec: Spec
    var status: Status
    var finalizers: seq<string>
    var owners: seq<Owner>
    var annotations: map<string, string>
    var deleting: bool

    constructor (o: Obj)
      ensures View() == o
    {
      uid, version, spec, status := o.uid, o.version, o.spec, o.status;
      finalizers, owners, annotations, deleting := o.finalizers, o.owners, o.annotations, o.deleting;
    }

    ghost function View(): Obj
      reads this
    {
      Obj(uid, version, spec, status, finalizers, owners, annotations, deleting)
    }

    method Encode() returns (o: Obj)
      ensures o == View()
    {
      o := Obj(uid, version, spec, status, finalizers, owners, annotations, deleting);
    }

    method Decode(o: Obj)
      modifies this
      ensures View() == o
    {
      uid, version, spec, status := o.uid, o.version, o.spec, o.status;
      finalizers, owners, annotations, deleting := o.finalizers, o.owners, o.annotations, o.deleting;
    }
  }

  datatype Fault = NoFault | NotFoundFault | ConflictFault | OtherFault

  function FaultOf(r: Reply): Fault {
    match r
    case Answer(_) => NoFault
    case Missing => NotFoundFault
    case Conflict => ConflictFault
    case Failed => OtherFault
  }

  /** The world as the operator reaches it: every call changes it. */
  class Client {
    var w: World

    constructor (w: World)
      ensures this.w == w
    {
      this.w := w;
    }

    method Call() returns (t: Turn)
      modifies this
      ensures (w, t) == Cluster.Call(old(w))
    {
      var (v, turn) := Cluster.Call(w);
      w := v;
      t := turn;
    }

    method Ask() returns (works: bool)
      modifies this
      ensures (w, works) == Remote(old(w))
    {
      var t := Call();
      works := t.works;
    }

    method Get(into: Instance) returns (err: Fault)
      modifies this, into
      ensures w == ApiGet(old(w)).0 && err == FaultOf(ApiGet(old(w)).1)
      ensures into.View() == if err == NoFault then ApiGet(old(w)).1.obj else old(into.View())
    {
      var (v, r) := ApiGet(w);
      w := v;
      err := FaultOf(r);
      if r.Answer? {
        into.Decode(r.obj);
      }
    }

    method Update(me: Instance) returns (err: Fault)
      modifies this, me
      ensures w == ApiUpdate(old(w), old(me.View())).0 && err == FaultOf(ApiUpdate(old(w), old(me.View())).1)
      ensures me.View() == if err == NoFault then ApiUpdate(old(w), old(me.View())).1.obj else old(me.View())
    {
      var o := me.Encode();
      var (v, r) := ApiUpdate(w, o);
      w := v;
      err := FaultOf(r);
      if r.Answer? {
        me.Decode(r.obj);
      }
    }

    method UpdateStatus(me: Instance) returns (err: Fault)
      modifies this, me
      ensures w == ApiStatusUpdate(old(w), old(me.View())).0
      ensures err == FaultOf(ApiStatusUpdate(old(w), old(me.View())).1)
      ensures me.View() == if err == NoFault then ApiStatusUpdate(old(w), old(me.View())).1.obj else old(me.View())
    {
      var o := me.Encode();
      var (v, r) := ApiStatusUpdate(w, o);
      w := v;
      err := FaultOf(r);
      if r.Answer? {
        me.Decode(r.obj);
      }
    }

    /** The Gerrit server carries out a request. */
    method Serve(b: Backend)
      modifies this
      ensures w == WithBackend(old(w), b)
    {
      w := WithBackend(w, b);
    }

    /** Bookkeeping only. */
    method Log(e: Event)
      modifies this
      ensures w == Logged(old(w), e)
    {
      w := Logged(w, e);
    }

    /** Bookkeeping only. */
    method Record(book: Book)
      modifies this
      ensures w == old(w).(book := book)
    {
      w := w.(book := book);
    }
  }

  // ---------- The state of a reconcile, as a value ----------

  ghost function State(c: Client, me: Instance): St
    reads c, me
  {
    St(c.w, me.View())
  }

  ghost function Outcome(ok: bool, c: Client, me: Instance): Try
    reads c, me
  {
    if ok then Ok(State(c, me)) else Err(State(c, me))
  }
}
