/** Optional values, standing for Java references that may be null. */
module Wrappers {
  datatype Option<+T> = None | Some(value: T)
}

/**
 * A backend-neutral description of a class being generated: the part of the
 * code-model emitter that the generators use. A defined class is an object
 * whose member lists the generators extend in place, as the emitter's
 * defined classes are.
 */
module CodeModel {
  import opened Wrappers

  datatype Modifier = Public | Protected | Private | Static | Final

  datatype TypeRef = LongType | ClassType(qualifiedName: string)

  datatype Literal = LongLiteral(value: int)

  datatype FieldDecl = FieldDecl(modifiers: set<Modifier>, fieldType: TypeRef, name: string, init: Option<Literal>)

  datatype Param = Param(modifiers: set<Modifier>, paramType: TypeRef, name: string)

  /** A constructor; its body is a list of statements inserted verbatim. */
  datatype ConstructorDecl = ConstructorDecl(modifiers: set<Modifier>, params: seq<Param>, body: seq<string>)

  /** A method; annotations are fully qualified annotation names, the body is opaque text. */
  datatype MethodDecl = MethodDecl(name: string, modifiers: set<Modifier>, params: seq<Param>, annotations: seq<string>, body: seq<string>)

  /** Why generating a class failed: the defined class could not be found
      after the base shell was built. */
  datatype GenerationError = IllegalState | NullDereference

  datatype Outcome = Generated | Failed(error: GenerationError)

  /** The method with one more annotation, everything else as it was. */
  function Annotate(m: MethodDecl, annotation: string): (r: MethodDecl)
    ensures r.annotations == m.annotations + [annotation]
    ensures r.name == m.name && r.modifiers == m.modifiers && r.params == m.params && r.body == m.body
  {
    m.(annotations := m.annotations + [annotation])
  }

  /** A class declaration under construction. */
  class DefinedClass {
    const name: string
    const superClass: string
    const interfaces: seq<string>
    var fields: seq<FieldDecl>
    var constructors: seq<ConstructorDecl>
    var methods: seq<MethodDecl>

    /** An empty shell: name, superclass and interfaces, no members. */
    constructor (name: string, superClass: string, interfaces: seq<string>)
      ensures this.name == name && this.superClass == superClass && this.interfaces == interfaces
      ensures fields == [] && constructors == [] && methods == []
    {
      this.name := name;
      this.superClass := superClass;
      this.interfaces := interfaces;
      fields, constructors, methods := [], [], [];
    }
  }
}
