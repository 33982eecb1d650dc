/**
 * The per-locale translation subclass: it extends the non-localised logger
 * implementation, takes the logger in a protected constructor, and overrides
 * one message method per entry of its translation map.
 */
module TranslatorModel {
  import opened Wrappers
  import opened CodeModel

  const LoggerParameterName: string := "logger"
  const LoggerClassName: string := "org.jboss.logging.Logger"
  const OverrideAnnotation: string := "java.lang.Override"

  /** `protected <init>(final Logger logger) { super(logger); }`, the body
      being one statement inserted verbatim. */
  function LoggerConstructor(): ConstructorDecl
  {
    ConstructorDecl({Protected}, [Param({Final}, ClassType(LoggerClassName), LoggerParameterName)],
                    ["super(" + LoggerParameterName + ");"])
  }

  /** A sequence with no element twice that holds exactly the keys of a map is
      as long as the map is large. */
  lemma {:induction false} DistinctKeysCount(order: seq<string>, keys: set<string>)
    requires forall i, j :: 0 <= i < j < |order| ==> order[i] != order[j]
    requires forall k :: k in order <==> k in keys
    ensures |order| == |keys|
  {
    if order != [] {
      var last := order[|order| - 1];
      var rest := order[..|order| - 1];
      assert forall k :: k in rest <==> k in keys - {last} by {
        assert order == rest + [last];
        forall k ensures k in rest ==> k != last {
          if k in rest {
            var i :| 0 <= i < |rest| && rest[i] == k;
            assert order[i] == k;
          }
        }
      }
      DistinctKeysCount(rest, keys - {last});
    }
  }

  class MessageLoggerTranslator {
    // What the base class model is given.
    const className: string
    const superClassName: string
    const interfaceNames: seq<string>
    // The localised message text, by method name.
    const translations: map<string, string>

    /** A null translation map is stored as the empty map. */
    constructor (className: string, superClassName: string, translations: Option<map<string, string>>)
      ensures this.className == className && this.superClassName == superClassName
      ensures interfaceNames == []
      ensures this.translations == if translations.Some? then translations.value else map[]
    {
      this.className := className;
      this.superClassName := superClassName;
      interfaceNames := [];
      this.translations := if translations.Some? then translations.value else map[];
    }

    /** The overriding methods for `keys`, in that order: the base's method
        for each key and its translated text, annotated @Override. */
    function Overrides(keys: seq<string>, messageMethod: (string, string) -> MethodDecl): (r: seq<MethodDecl>)
      requires forall k :: k in keys ==> k in translations
      ensures |r| == |keys|
    {
      if keys == [] then []
      else
        var last := keys[|keys| - 1];
        Overrides(keys[..|keys| - 1], messageMethod) + [Annotate(messageMethod(last, translations[last]), OverrideAnnotation)]
    }

    /** Each overriding method is the base's method for its key and text, with
        @Override appended to its annotations. */
    lemma {:induction false} OverridesSpec(keys: seq<string>, messageMethod: (string, string) -> MethodDecl)
      requires forall k :: k in keys ==> k in translations
      ensures forall i :: 0 <= i < |keys| ==>
        Overrides(keys, messageMethod)[i] == Annotate(messageMethod(keys[i], translations[keys[i]]), OverrideAnnotation)
    {
      if keys != [] {
        var rest := keys[..|keys| - 1];
        OverridesSpec(rest, messageMethod);
        forall i | 0 <= i < |keys|
          ensures Overrides(keys, messageMethod)[i] == Annotate(messageMethod(keys[i], translations[keys[i]]), OverrideAnnotation)
        {
          if i < |rest| {
            assert keys[i] == rest[i];
          }
        }
      }
    }

    /** Every overriding method carries @Override as its last annotation. */
    lemma {:induction false} OverridesAnnotated(keys: seq<string>, messageMethod: (string, string) -> MethodDecl)
      requires forall k :: k in keys ==> k in translations
      ensures forall m :: m in Overrides(keys, messageMethod) ==>
        m.annotations != [] && m.annotations[|m.annotations| - 1] == OverrideAnnotation
    {
      if keys != [] {
        var rest, last := keys[..|keys| - 1], keys[|keys| - 1];
        var added := Annotate(messageMethod(last, translations[last]), OverrideAnnotation);
        OverridesAnnotated(rest, messageMethod);
        assert Overrides(keys, messageMethod) == Overrides(rest, messageMethod) + [added];
      }
    }

    /** Extends the shell the base built, `definedClass` (null when the lookup
        by class name found nothing): adds the logger constructor, then one
        @Override message method per translation entry. `messageMethod` is the
        base's hook that makes the method for a key and its text. The map is
        visited in no particular order; `order` is the order taken. */
    method GenerateModel(definedClass: DefinedClass?, messageMethod: (string, string) -> MethodDecl)
      returns (outcome: Outcome, ghost order: seq<string>)
      modifies definedClass
      ensures definedClass == null ==> outcome == Failed(NullDereference)
      ensures definedClass != null ==>
        && outcome == Generated
        && definedClass.fields == old(definedClass.fields)
        && definedClass.constructors == old(definedClass.constructors) + [LoggerConstructor()]
        && (forall k :: k in order <==> k in translations)
        && (forall i, j :: 0 <= i < j < |order| ==> order[i] != order[j])
        && |order| == |translations|
        && definedClass.methods == old(definedClass.methods) + Overrides(order, messageMethod)
    {
      order := [];
      if definedClass == null {
        return Failed(NullDereference), order;
      }
      definedClass.constructors := definedClass.constructors + [LoggerConstructor()];
      ghost var before := definedClass.methods;
      var remaining := translations.Keys;
      while remaining != {}
        invariant remaining <= translations.Keys
        invariant forall k :: k in order <==> k in translations && k !in remaining
        invariant forall i, j :: 0 <= i < j < |order| ==> order[i] != order[j]
        invariant definedClass.fields == old(definedClass.fields)
        invariant definedClass.constructors == old(definedClass.constructors) + [LoggerConstructor()]
        invariant definedClass.methods == before + Overrides(order, messageMethod)
        decreases remaining
      {
        var key :| key in remaining;
        var value := translations[key];
        // the base adds the method for the entry; it is then annotated in place
        definedClass.methods := definedClass.methods + [Annotate(messageMethod(key, value), OverrideAnnotation)];
        remaining := remaining - {key};
        ghost var visited := order;
        order := order + [key];
        assert order[..|order| - 1] == visited;
      }
      DistinctKeysCount(order, translations.Keys);
      outcome := Generated;
    }
  }

  /** A translator built without a map and one built with an empty map generate
      the same shape from identical shells: the logger constructor and no
      message methods. */
  method NullMapSameShapeAsEmpty(className: string, superClassName: string, messageMethod: (string, string) -> MethodDecl)
    returns (fromNull: DefinedClass, fromEmpty: DefinedClass)
    ensures fromNull.constructors == fromEmpty.constructors == [LoggerConstructor()]
    ensures fromNull.methods == fromEmpty.methods == []
    ensures fromNull.fields == fromEmpty.fields == []
  {
    var nullMap := new MessageLoggerTranslator(className, superClassName, None);
    var emptyMap := new MessageLoggerTranslator(className, superClassName, Some(map[]));
    fromNull := new DefinedClass(className, superClassName, []);
    fromEmpty := new DefinedClass(className, superClassName, []);
    var _, _ := nullMap.GenerateModel(fromNull, messageMethod);
    var _, _ := emptyMap.GenerateModel(fromEmpty, messageMethod);
  }
}
