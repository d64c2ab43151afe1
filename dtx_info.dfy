/**
 * The transaction descriptor of an intercepted business method (DTXInfo) and
 * the process-wide cache that hands one descriptor out per unit id.
 */
module Aspect {
  import opened Wrappers

  /** A `java.lang.reflect.Method` as the descriptor sees it: `getName()`, `toString()` and `getParameterTypes()`. */
  datatype MethodRef = MethodRef(name: string, text: string, parameterTypes: seq<string>)

  /** A `Class<?>` as reflection sees it here: its name and its public methods, inherited ones included. */
  datatype ClassRef = ClassRef(name: string, publicMethods: seq<MethodRef>)

  /** The argument values of one call, as opaque tokens. */
  type Args = seq<string>

  /** A value of the propagation enum (DTXPropagation.java is not part of this model). */
  datatype DTXPropagation = DTXPropagation(name: string)

  /** The intercepted call reached through an AspectJ join point. */
  datatype JoinPoint = JoinPoint(signatureText: string, signatureMethod: MethodRef, target: ClassRef, args: Args)

  /** The intercepted call reached through an AOP Alliance method invocation. */
  datatype MethodInvocation = MethodInvocation(invoked: MethodRef, arguments: Args, self: ClassRef)

  /** `Class.getMethod(name, parameterTypes)` failed. */
  datatype NoSuchMethodException = NoSuchMethodException(className: string, methodName: string)

  /** `targetClass.getMethod(name, types)`: the first public method with that name and those parameter types. */
  function GetMethod(c: ClassRef, name: string, types: seq<string>): (r: Option<MethodRef>)
    ensures r.Some? ==> r.value in c.publicMethods && r.value.name == name && r.value.parameterTypes == types
    ensures r.None? ==> forall m :: m in c.publicMethods ==> !(m.name == name && m.parameterTypes == types)
    decreases |c.publicMethods|
  {
    if c.publicMethods == [] then None
    else
      var m := c.publicMethods[0];
      if m.name == name && m.parameterTypes == types then Some(m)
      else GetMethod(ClassRef(c.name, c.publicMethods[1..]), name, types)
  }

  /** The aspect information recorded for a unit (TransactionInfo.java is not part of this model; these are the fields DTXInfo sets). */
  class TransactionInfo {
    var targetClazz: ClassRef
    var argumentValues: Args
    var methodName: string
    var methodStr: string
    var parameterTypes: seq<string>

    constructor (targetClazz: ClassRef, argumentValues: Args, methodName: string, methodStr: string, parameterTypes: seq<string>)
      ensures this.targetClazz == targetClazz && this.argumentValues == argumentValues
      ensures this.methodName == methodName && this.methodStr == methodStr && this.parameterTypes == parameterTypes
    {
      this.targetClazz := targetClazz;
      this.argumentValues := argumentValues;
      this.methodName := methodName;
      this.methodStr := methodStr;
      this.parameterTypes := parameterTypes;
    }
  }

  class DTXInfo {
    /** Set by the interception layer after construction; null until then. */
    var transactionType: Option<string>
    var transactionPropagation: Option<DTXPropagation>
    var transactionInfo: TransactionInfo
    var businessMethod: MethodRef
    var unitId: string

    /** The private constructor: records the method and the call's arguments; the unit id comes from `method.toString()`. */
    constructor (m: MethodRef, args: Args, targetClass: ClassRef, unitIdOf: string -> string)
      ensures fresh(transactionInfo)
      ensures transactionInfo.targetClazz == targetClass && transactionInfo.argumentValues == args
      ensures transactionInfo.methodName == m.name && transactionInfo.methodStr == m.text
      ensures transactionInfo.parameterTypes == m.parameterTypes
      ensures businessMethod == m && unitId == unitIdOf(m.text)
      ensures transactionType == None && transactionPropagation == None
    {
      transactionInfo := new TransactionInfo(targetClass, args, m.name, m.text, m.parameterTypes);
      businessMethod := m;
      unitId := unitIdOf(m.text);
      transactionType := None;
      transactionPropagation := None;
    }

    /** Replaces the recorded argument values and nothing else. */
    method ReanalyseMethodArgs(args: Args)
      modifies transactionInfo`argumentValues
      ensures transactionInfo.argumentValues == args
    {
      transactionInfo.argumentValues := args;
    }
  }

  /** Storing a value under a new key adds exactly that value to the map's values. */
  lemma NewKeyValues<K, V>(m: map<K, V>, k: K, v: V)
    requires k !in m
    ensures m[k := v].Values == m.Values + {v}
  {
    forall x | x in m.Values + {v}
      ensures x in m[k := v].Values
    {
      if x != v {
        var j :| j in m && m[j] == x;
        assert m[k := v][j] == x;
      } else {
        assert m[k := v][k] == v;
      }
    }
  }

  /**
   * The static `dtxInfoCache`, keyed by unit id. `unitIdOf` is
   * `Transactions.unitId`, a pure function of a signature string
   * (Transactions.java is not part of this model).
   */
  class DTXInfoCache {
    var entries: map<string, DTXInfo>
    const unitIdOf: string -> string

    constructor (unitIdOf: string -> string)
      ensures entries == map[] && this.unitIdOf == unitIdOf && Valid()
    {
      entries := map[];
      this.unitIdOf := unitIdOf;
    }

    /** The argument-holding objects of all entries. */
    function Infos(): set<TransactionInfo>
      reads this, entries.Values
    {
      set e | e in entries.Values :: e.transactionInfo
    }

    /**
     * Every entry's unit id is `unitIdOf` of its method's `toString()`, whatever
     * key it is stored under, and no two entries share argument storage.
     */
    ghost predicate Valid()
      reads this, entries.Values
    {
      && (forall k :: k in entries ==> entries[k].unitId == unitIdOf(entries[k].businessMethod.text))
      && (forall k1, k2 :: k1 in entries && k2 in entries && k1 != k2 ==>
            entries[k1] != entries[k2] && entries[k1].transactionInfo != entries[k2].transactionInfo)
    }

    /** The argument values each entry holds. */
    ghost function ArgsByKey(): map<string, Args>
      reads this, entries.Values, Infos()
    {
      map k | k in entries :: entries[k].transactionInfo.argumentValues
    }

    /** Puts a new descriptor for `method` under `key`. */
    method Insert(key: string, m: MethodRef, args: Args, targetClass: ClassRef) returns (r: DTXInfo)
      requires Valid() && key !in entries
      modifies this
      ensures Valid() && fresh(r) && fresh(r.transactionInfo)
      ensures entries == old(entries)[key := r]
      ensures r.businessMethod == m && r.unitId == unitIdOf(m.text)
      ensures r.transactionInfo.targetClazz == targetClass && r.transactionInfo.argumentValues == args
      ensures r.transactionInfo.methodName == m.name && r.transactionInfo.methodStr == m.text
      ensures r.transactionInfo.parameterTypes == m.parameterTypes
      ensures r.transactionType == None && r.transactionPropagation == None
      ensures ArgsByKey() == old(ArgsByKey())[key := args]
      ensures Infos() == old(Infos()) + {r.transactionInfo}
    {
      r := new DTXInfo(m, args, targetClass, unitIdOf);
      Store(key, r);
    }

    /** Stores a descriptor that shares no object with the entries under a new key. */
    method Store(key: string, r: DTXInfo)
      requires Valid() && key !in entries
      requires r !in entries.Values && r.transactionInfo !in Infos()
      requires r.unitId == unitIdOf(r.businessMethod.text)
      modifies this`entries
      ensures Valid() && entries == old(entries)[key := r]
      ensures ArgsByKey() == old(ArgsByKey())[key := r.transactionInfo.argumentValues]
      ensures Infos() == old(Infos()) + {r.transactionInfo}
    {
      ghost var before := entries;
      entries := entries[key := r];
      NewKeyValues(before, key, r);
      assert forall k :: k in before ==> entries[k] == before[k] && entries[k] != r;
    }

    /** Refreshes the arguments of the entry under `key`. */
    method Refresh(key: string, args: Args) returns (r: DTXInfo)
      requires Valid() && key in entries
      modifies entries[key].transactionInfo`argumentValues
      ensures Valid() && r == entries[key]
      ensures r.transactionInfo.argumentValues == args
      ensures ArgsByKey() == old(ArgsByKey())[key := args]
      ensures Infos() == old(Infos())
    {
      r := entries[key];
      r.ReanalyseMethodArgs(args);
    }

    /** `getFromCache(ProceedingJoinPoint)`: keyed by the unit id of the join point's signature text. */
    method GetFromCacheJoinPoint(jp: JoinPoint) returns (r: Result<DTXInfo, NoSuchMethodException>)
      requires Valid()
      modifies this, Infos()`argumentValues
      ensures Valid()
      ensures var key := unitIdOf(jp.signatureText);
        && (key in old(entries) ==> r == Ok(old(entries[key])) && entries == old(entries))
        && (key !in old(entries) && GetMethod(jp.target, jp.signatureMethod.name, jp.signatureMethod.parameterTypes).None? ==>
              r == Err(NoSuchMethodException(jp.target.name, jp.signatureMethod.name)) && entries == old(entries)
              && ArgsByKey() == old(ArgsByKey()))
        && (key !in old(entries) && GetMethod(jp.target, jp.signatureMethod.name, jp.signatureMethod.parameterTypes).Some? ==>
              var thisMethod := GetMethod(jp.target, jp.signatureMethod.name, jp.signatureMethod.parameterTypes).value;
              r.Ok? && fresh(r.value) && entries == old(entries)[key := r.value]
              && r.value.businessMethod == thisMethod && r.value.unitId == unitIdOf(thisMethod.text)
              && r.value.transactionInfo.targetClazz == jp.target)
        && (r.Ok? ==> r.value.transactionInfo.argumentValues == jp.args && ArgsByKey() == old(ArgsByKey())[key := jp.args])
      ensures forall i :: i in Infos() && i !in old(Infos()) ==> fresh(i)
    {
      var unitId := unitIdOf(jp.signatureText);
      if unitId !in entries {
        var thisMethod := GetMethod(jp.target, jp.signatureMethod.name, jp.signatureMethod.parameterTypes);
        if thisMethod.None? {
          return Err(NoSuchMethodException(jp.target.name, jp.signatureMethod.name));
        }
        var _ := Insert(unitId, thisMethod.value, jp.args, jp.target);
      }
      var info := Refresh(unitId, jp.args);
      r := Ok(info);
    }

    /** `getFromCache(MethodInvocation)`: keyed by the unit id of the method's `toString()`. */
    method GetFromCacheInvocation(mi: MethodInvocation) returns (r: DTXInfo)
      requires Valid()
      modifies this, Infos()`argumentValues
      ensures Valid()
      ensures var key := unitIdOf(mi.invoked.text);
        && (key in old(entries) ==> r == old(entries[key]) && entries == old(entries))
        && (key !in old(entries) ==>
              fresh(r) && entries == old(entries)[key := r]
              && r.businessMethod == mi.invoked && r.transactionInfo.targetClazz == mi.self)
        && r.unitId == unitIdOf(r.businessMethod.text)
        && r.transactionInfo.argumentValues == mi.arguments
        && ArgsByKey() == old(ArgsByKey())[key := mi.arguments]
      ensures forall i :: i in Infos() && i !in old(Infos()) ==> fresh(i)
    {
      var unitId := unitIdOf(mi.invoked.text);
      if unitId !in entries {
        var _ := Insert(unitId, mi.invoked, mi.arguments, mi.self);
      }
      r := Refresh(unitId, mi.arguments);
    }

    /**
     * `getFromCache(Method, Object[], Class)`: keyed by the unit id of the
     * method's bare NAME, although the entry's own unit id is taken from its
     * `toString()`.
     */
    method GetFromCacheMethod(m: MethodRef, args: Args, targetClass: ClassRef) returns (r: DTXInfo)
      requires Valid()
      modifies this, Infos()`argumentValues
      ensures Valid()
      ensures var key := unitIdOf(m.name);
        && (key in old(entries) ==> r == old(entries[key]) && entries == old(entries))
        && (key !in old(entries) ==>
              fresh(r) && entries == old(entries)[key := r]
              && r.businessMethod == m && r.unitId == unitIdOf(m.text)
              && r.transactionInfo.targetClazz == targetClass)
        && r.transactionInfo.argumentValues == args
        && ArgsByKey() == old(ArgsByKey())[key := args]
      ensures forall i :: i in Infos() && i !in old(Infos()) ==> fresh(i)
    {
      var unitId := unitIdOf(m.name);
      if unitId !in entries {
        var _ := Insert(unitId, m, args, targetClass);
      }
      r := Refresh(unitId, args);
    }
  }

  /** Looking the same method up twice yields the same descriptor, with the second call's arguments. */
  method RepeatedInvocationLookups(cache: DTXInfoCache, m: MethodRef, self: ClassRef, args1: Args, args2: Args)
    returns (r1: DTXInfo, r2: DTXInfo)
    requires cache.Valid()
    modifies cache, cache.Infos()`argumentValues
    ensures cache.Valid()
    ensures r1 == r2 && r2.unitId == cache.unitIdOf(r2.businessMethod.text)
    ensures cache.unitIdOf(m.text) in cache.entries && cache.entries[cache.unitIdOf(m.text)] == r2
    ensures r2.transactionInfo.argumentValues == args2
    ensures old(cache.entries).Keys <= cache.entries.Keys
  {
    r1 := cache.GetFromCacheInvocation(MethodInvocation(m, args1, self));
    r2 := cache.GetFromCacheInvocation(MethodInvocation(m, args2, self));
  }

  /**
   * Two lookups by name of methods that share a name, on any cache, share one
   * entry: the second call is handed the descriptor of whichever method was
   * cached under that name first, with its own unit id, and only the arguments
   * change.
   */
  method SameNameLookupsShareEntry(cache: DTXInfoCache, first: MethodRef, second: MethodRef,
                                   args1: Args, args2: Args, targetClass: ClassRef)
    returns (r1: DTXInfo, r2: DTXInfo)
    requires cache.Valid() && first.name == second.name
    modifies cache, cache.Infos()`argumentValues
    ensures cache.Valid()
    ensures r1 == r2 && r2.transactionInfo.argumentValues == args2
    ensures cache.unitIdOf(first.name) in old(cache.entries) ==> r2 == old(cache.entries)[cache.unitIdOf(first.name)]
    ensures cache.unitIdOf(first.name) !in old(cache.entries) ==>
      r2.businessMethod == first && r2.unitId == cache.unitIdOf(first.text)
    ensures r2.unitId == cache.unitIdOf(r2.businessMethod.text)
  {
    r1 := cache.GetFromCacheMethod(first, args1, targetClass);
    r2 := cache.GetFromCacheMethod(second, args2, targetClass);
  }

  /**
   * Two overloads `save(int)` and `save(String)` of one class share a single
   * entry in the by-name lookup: the second call is handed the first
   * method's descriptor, whose unit id is not its own.
   */
  method OverloadsShareByNameEntry() returns (r1: DTXInfo, r2: DTXInfo)
    ensures r1 == r2
    ensures r2.businessMethod.text == "public void A.save(int)"
    ensures r2.unitId != "public void A.save(java.lang.String)"
  {
    var saveInt := MethodRef("save", "public void A.save(int)", ["int"]);
    var saveString := MethodRef("save", "public void A.save(java.lang.String)", ["java.lang.String"]);
    var a := ClassRef("A", [saveInt, saveString]);
    var cache := new DTXInfoCache(s => s);
    r1 := cache.GetFromCacheMethod(saveInt, ["1"], a);
    r2 := cache.GetFromCacheMethod(saveString, ["x"], a);
    assert "save" in cache.entries;
  }
}
