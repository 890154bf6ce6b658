/** `subscription_t` and `subscription_info_t` as objects. The methods change the two maps in
    place and are proved to compute the functions of module Subscriptions. */
module SubscriptionMap {
  import opened SubscriptionRuns
  import opened Subscriptions

  class Info {
    const address: Addr
    var handler: Handler
    const internalAddress: bool
    const internalHandler: bool

    constructor (address: Addr, handler: Handler, internalAddress: bool, internalHandler: bool)
      ensures this.address == address && this.handler == handler
      ensures this.internalAddress == internalAddress && this.internalHandler == internalHandler
    {
      this.address, this.handler := address, handler;
      this.internalAddress, this.internalHandler := internalAddress, internalHandler;
    }

    function Fields(): Rec
      reads this
    {
      Rec(address, handler, internalAddress, internalHandler)
    }
  }

  method FindHandler(handlers: seq<Handler>, h: Handler) returns (at: nat)
    ensures at == First(handlers, h)
  {
    at := 0;
    while at < |handlers| && handlers[at] != h
      invariant at <= |handlers|
      invariant forall i :: 0 <= i < at ==> handlers[i] != h
    {
      at := at + 1;
    }
  }

  class Map {
    const kinds: Kinds
    var internalInfos: map<Addr, seq<Info>>
    var mineHandlers: map<Key, Joint>
    ghost var made: set<Info>

    ghost function Abs(): State<Info>
      reads this, made
    {
      State(map i | i in made :: i.Fields(), internalInfos, mineHandlers)
    }

    /** The lists hold infos made here, each under its address. */
    ghost predicate Valid()
      reads this`internalInfos, this`made
    {
      forall a, i :: a in internalInfos && i in internalInfos[a] ==> i in made && i.address == a
    }

    constructor (kinds: Kinds)
      ensures this.kinds == kinds && Abs() == Blank<Info>().s && Valid()
    {
      this.kinds := kinds;
      internalInfos, mineHandlers, made := map[], map[], {};
    }

    method AddToIndex(address: Addr, handler: Handler, internalHandler: bool)
      modifies this`mineHandlers
      ensures mineHandlers ==
              AddHandler(old(mineHandlers), Key(address, kinds.typeOf(handler)), internalHandler, handler)
    {
      var key := Key(address, kinds.typeOf(handler));
      var joint := if key in mineHandlers then mineHandlers[key] else NOBODY;
      joint := if internalHandler then joint.(internal := joint.internal + [handler])
               else joint.(external := joint.external + [handler]);
      mineHandlers := mineHandlers[key := joint];
    }

    method MakeInfo(address: Addr, handler: Handler) returns (info: Info)
      requires Valid()
      modifies this`made
      ensures fresh(info) && made == old(made) + {info} && Valid()
      ensures info.Fields() == Rec(address, handler, kinds.home(address), kinds.mine(handler))
      ensures Abs() == old(Abs()).(recs := old(Abs()).recs[info := info.Fields()])
    {
      info := new Info(address, handler, kinds.home(address), kinds.mine(handler));
      made := made + {info};
    }

    method Subscribe(address: Addr, handler: Handler) returns (info: Info)
      requires Valid()
      modifies this
      ensures fresh(info) && made == old(made) + {info} && Valid()
      ensures Abs() == Materialize(kinds, old(Abs()), info, address, handler)
    {
      hide AddHandler;
      info := MakeInfo(address, handler);
      if info.internalAddress {
        var infoList := if address in internalInfos then internalInfos[address] else [];
        internalInfos := internalInfos[address := infoList + [info]];
        AddToIndex(address, handler, info.internalHandler);
      }
    }

    method ReplaceHandler(info: Info, handler: Handler)
      requires Valid() && info in made
      requires Guarded(kinds, Abs(), Updates(info, handler))
      modifies this`mineHandlers, info`handler
      ensures Abs() == Update(kinds, old(Abs()), info, handler) && Valid()
    {
      hide First;
      ghost var was := Abs();
      if kinds.home(info.address) {
        var key := Key(info.address, kinds.typeOf(info.handler));
        var joint := mineHandlers[key];
        var handlers := if kinds.mine(info.handler) then joint.internal else joint.external;
        var at := FindHandler(handlers, info.handler);
        handlers := handlers[at := handler];
        joint := if kinds.mine(info.handler) then joint.(internal := handlers) else joint.(external := handlers);
        mineHandlers := mineHandlers[key := joint];
      }
      info.handler := handler;
      assert Abs().recs == was.recs[info := was.recs[info].(handler := handler)];
    }

    method Recipients(address: Addr, messageType: Type) returns (r: Recipients)
      requires Valid()
      ensures r == GetRecipients(Abs(), address, messageType)
    {
      var key := Key(address, messageType);
      if key !in mineHandlers {
        return Null;
      }
      return Found(mineHandlers[key]);
    }

    method FindInfo(infoList: seq<Info>, handler: Handler) returns (at: nat)
      requires forall i :: i in infoList ==> i in made
      ensures at == First(HandlersOf(Abs().recs, infoList), handler)
    {
      at := 0;
      while at < |infoList| && infoList[at].handler != handler
        invariant at <= |infoList|
        invariant forall i :: 0 <= i < at ==> infoList[i].handler != handler
      {
        at := at + 1;
      }
      ghost var hs := HandlersOf(Abs().recs, infoList);
      assert forall i :: 0 <= i < |infoList| ==> hs[i] == infoList[i].handler;
    }

    method DropFromList(info: Info)
      requires Valid() && info in made && info.internalAddress
      requires info.address in internalInfos && info.handler in HandlersAt(Abs(), info.address)
      modifies this`internalInfos
      ensures internalInfos ==
              DropInfo(old(internalInfos), info.address, First(HandlersAt(old(Abs()), info.address), info.handler))
      ensures Valid()
    {
      var infoList := internalInfos[info.address];
      var at := FindInfo(infoList, info.handler);
      infoList := infoList[..at] + infoList[at + 1..];
      if infoList == [] {
        internalInfos := internalInfos - {info.address};
      } else {
        internalInfos := internalInfos[info.address := infoList];
      }
    }

    method DropFromIndex(key: Key, internalHandler: bool, handler: Handler)
      requires key in mineHandlers && handler in Side(mineHandlers[key], internalHandler)
      modifies this`mineHandlers
      ensures mineHandlers == DropHandler(old(mineHandlers), key, internalHandler, handler)
    {
      hide First;
      var joint := mineHandlers[key];
      var handlers := if internalHandler then joint.internal else joint.external;
      var miscHandlers := if internalHandler then joint.external else joint.internal;
      var at := FindHandler(handlers, handler);
      handlers := handlers[..at] + handlers[at + 1..];
      if handlers == [] && miscHandlers == [] {
        mineHandlers := mineHandlers - {key};
      } else {
        joint := if internalHandler then Joint(handlers, miscHandlers) else Joint(miscHandlers, handlers);
        mineHandlers := mineHandlers[key := joint];
      }
    }

    method Unsubscribe(info: Info)
      requires Valid() && info in made
      requires Guarded(kinds, Abs(), Forgets(info))
      modifies this`internalInfos, this`mineHandlers
      ensures Abs() == Forget(kinds, old(Abs()), info) && Valid()
    {
      hide First, DropInfo, DropHandler;
      if info.internalAddress {
        DropFromList(info);
        DropFromIndex(Key(info.address, kinds.typeOf(info.handler)), info.internalHandler, info.handler);
      }
    }
  }
}
