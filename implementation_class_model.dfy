/**
 * The shell every logger-interface implementation shares: the class is named
 * after the interface and the implementation type, extends Object, implements
 * the interface and Serializable, and declares a serialVersionUID of 1.
 */
module ImplementationModel {
  import opened Wrappers
  import opened CodeModel

  /** Parsed metadata of one logging method, kept opaque here. */
  type MethodDescriptor(==)

  /** The flavour of implementation, represented by the text it contributes
      when concatenated to the interface name (its `toString()`). */
  datatype ImplementationType = ImplementationType(text: string)

  const ObjectClassName: string := "java.lang.Object"
  const SerializableName: string := "java.io.Serializable"

  /** `private static final long serialVersionUID = 1L;` */
  function SerialVersionUidField(): FieldDecl
  {
    FieldDecl({Private, Static, Final}, LongType, "serialVersionUID", Some(LongLiteral(1)))
  }

  class ImplementationClassModel {
    // What the base class model is given.
    const className: string
    const projectCode: string
    const superClassName: string
    const interfaceNames: seq<string>
    // What this model adds.
    ghost const interfaceName: string
    const implementationType: ImplementationType
    var methodDescriptor: Option<MethodDescriptor>

    /** The fixed construction rule, which every instance keeps. */
    ghost predicate Valid()
    {
      && className == interfaceName + implementationType.text
      && superClassName == ObjectClassName
      && interfaceNames == [interfaceName, SerializableName]
    }

    constructor (interfaceName: string, projectCode: string, implementationType: ImplementationType)
      ensures Valid()
      ensures this.interfaceName == interfaceName && this.projectCode == projectCode
      ensures className == interfaceName + implementationType.text
      ensures superClassName == ObjectClassName
      ensures interfaceNames == [interfaceName, SerializableName]
      ensures GetType() == implementationType
      ensures methodDescriptor == None
    {
      className := interfaceName + implementationType.text;
      this.projectCode := projectCode;
      superClassName := ObjectClassName;
      interfaceNames := [interfaceName, SerializableName];
      this.interfaceName := interfaceName;
      this.implementationType := implementationType;
      methodDescriptor := None;
    }

    /** The implementation type: the suffix that follows the implemented
        interface's name in the class name. */
    function GetType(): (t: ImplementationType)
      requires Valid()
      ensures className == interfaceNames[0] + t.text
    {
      implementationType
    }

    /** Replaces the active descriptor; nothing else changes. */
    method SetMethodDescriptor(methodDescriptor: Option<MethodDescriptor>)
      requires Valid()
      modifies this`methodDescriptor
      ensures Valid()
      ensures this.methodDescriptor == methodDescriptor
    {
      this.methodDescriptor := methodDescriptor;
    }

    /** Adds the serialVersionUID field to the class shell the base built,
        `definedClass` (null when the base could not find it). */
    method GenerateModel(definedClass: DefinedClass?) returns (outcome: Outcome)
      modifies definedClass
      ensures definedClass == null ==> outcome == Failed(IllegalState)
      ensures definedClass != null ==>
        && outcome == Generated
        && definedClass.fields == old(definedClass.fields) + [SerialVersionUidField()]
        && definedClass.constructors == old(definedClass.constructors)
        && definedClass.methods == old(definedClass.methods)
    {
      if definedClass == null {
        return Failed(IllegalState);
      }
      definedClass.fields := definedClass.fields + [SerialVersionUidField()];
      outcome := Generated;
    }
  }

  /** A model built for an interface and generated on a member-less shell
      carrying the name, superclass and interfaces it hands to its base: the
      class declared is the interface's serializable implementation with the
      one serialVersionUID field. */
  method GenerateImplementation(interfaceName: string, projectCode: string, implementationType: ImplementationType)
    returns (shell: DefinedClass)
    ensures shell.name == interfaceName + implementationType.text
    ensures shell.superClass == ObjectClassName
    ensures shell.interfaces == [interfaceName, SerializableName]
    ensures shell.fields == [SerialVersionUidField()]
    ensures shell.constructors == [] && shell.methods == []
  {
    var model := new ImplementationClassModel(interfaceName, projectCode, implementationType);
    shell := new DefinedClass(model.className, model.superClassName, model.interfaceNames);
    var _ := model.GenerateModel(shell);
  }
}
