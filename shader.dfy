/**
 * The shader's attribute dictionary (class Shader): the name under which
 * each shader attribute is bound. Names are only ever set to non-empty
 * strings, so an empty lookup means the attribute has no entry.
 */
module Shaders {
  /**
   * Shader::IEAttribute: the thirteen attributes the dictionary is filled
   * with, and the two the renderer also asks for (Vertices, TextureSampler).
   */
  datatype Attribute =
    | Vertices | Position | Normal | Texture | Color
    | PerspectiveMatrix | ProjectionMatrix | ViewMatrix | CameraMatrix | ModelMatrix
    | Interpolation | InterpolationPos | InterpolationNormal | ColorMap | TextureSampler

  type Dictionary = map<Attribute, string>

  /** The name PopulateAttributeDict gives an attribute, "" for the two it leaves out. */
  function DefaultName(a: Attribute): string {
    match a
    case Position => "vPosition"
    case Normal => "vNormal"
    case Texture => "vTexCoord"
    case Color => "vColor"
    case PerspectiveMatrix => "uPerspective"
    case ProjectionMatrix => "uProjection"
    case ViewMatrix => "uViewMatrix"
    case CameraMatrix => "uCamera"
    case ModelMatrix => "uModel"
    case Interpolation => "fInterpolation"
    case InterpolationPos => "viPosition"
    case InterpolationNormal => "viNormal"
    case ColorMap => "sColorMap"
    case Vertices => ""
    case TextureSampler => ""
  }

  /** The dictionary d after PopulateAttributeDict: every attribute with a default name gets it. */
  ghost predicate Populated(d: Dictionary, before: Dictionary) {
    forall a :: Lookup(d, a) == if DefaultName(a) != "" then DefaultName(a) else Lookup(before, a)
  }

  /** The name of an attribute, "" when it has no entry. */
  function Lookup(d: Dictionary, a: Attribute): string {
    if a in d then d[a] else ""
  }

  /** No entry holds an empty name. */
  ghost predicate NoEmptyNames(d: Dictionary) {
    forall a | a in d :: d[a] != ""
  }

  /** The dictionary after SetAttributeName(a, name): unchanged for an empty name, otherwise the entry of a replaced. */
  function WithName(d: Dictionary, a: Attribute, name: string): Dictionary {
    if name == "" then d else d[a := name]
  }

  /** In a dictionary with no empty name, a lookup is empty exactly when the attribute has no entry. */
  lemma LookupEmptyIffMissing(d: Dictionary, a: Attribute)
    requires NoEmptyNames(d)
    ensures Lookup(d, a) == "" <==> a !in d
  {
  }

  /**
   * Setting a non-empty name makes the lookup return it and leaves every
   * other attribute's lookup as it was; setting an empty one changes no
   * lookup; setting the same name twice is setting it once; no empty name
   * ever enters the dictionary.
   */
  lemma WithNameFacts(d: Dictionary, a: Attribute, name: string)
    ensures name != "" ==> Lookup(WithName(d, a, name), a) == name
    ensures forall b | b != a :: Lookup(WithName(d, a, name), b) == Lookup(d, b)
    ensures name == "" ==> forall b :: Lookup(WithName(d, a, name), b) == Lookup(d, b)
    ensures WithName(WithName(d, a, name), a, name) == WithName(d, a, name)
    ensures NoEmptyNames(d) ==> NoEmptyNames(WithName(d, a, name))
  {
  }

  /** A populated empty dictionary answers every lookup with the default name, and holds no empty name. */
  lemma PopulatedFromEmpty(d: Dictionary)
    requires Populated(d, map[])
    requires forall a :: a in d <==> DefaultName(a) != ""
    ensures forall a :: Lookup(d, a) == DefaultName(a)
    ensures forall a | a in d :: DefaultName(a) != ""
  {
    forall a | a in d
      ensures DefaultName(a) != ""
    {
      assert Lookup(d, a) == DefaultName(a);
    }
  }

  class Shader {
    /** m_AttributeDictionary. */
    var dictionary: Dictionary

    /** A new shader names exactly the thirteen populated attributes, by their default names. */
    constructor ()
      ensures forall a :: GetAttributeName(a) == DefaultName(a)
      ensures forall a :: a in dictionary <==> DefaultName(a) != ""
      ensures NoEmptyNames(dictionary)
    {
      dictionary := map[];
      new;
      PopulateAttributeDict();
      PopulatedFromEmpty(dictionary);
    }

    /** GetAttributeName: the name of the attribute, "" when it has none. */
    function GetAttributeName(a: Attribute): (name: string)
      reads this
      ensures name != "" ==> a in dictionary && dictionary[a] == name
      ensures NoEmptyNames(dictionary) ==> (name == "" <==> a !in dictionary)
    {
      Lookup(dictionary, a)
    }

    /** SetAttributeName: an empty name is ignored; any other replaces the attribute's entry. */
    method SetAttributeName(a: Attribute, name: string)
      modifies this
      ensures dictionary == WithName(old(dictionary), a, name)
      ensures old(NoEmptyNames(dictionary)) ==> NoEmptyNames(dictionary)
    {
      if name == "" {
        return;
      }
      dictionary := dictionary[a := name];
    }

    /** PopulateAttributeDict: writes the thirteen entries over the dictionary. */
    method PopulateAttributeDict()
      modifies this
      ensures Populated(dictionary, old(dictionary))
      ensures forall a :: a in dictionary <==> a in old(dictionary) || DefaultName(a) != ""
    {
      var d := dictionary;
      d := d[Position := "vPosition"];
      d := d[Normal := "vNormal"];
      d := d[Texture := "vTexCoord"];
      d := d[Color := "vColor"];
      d := d[PerspectiveMatrix := "uPerspective"];
      d := d[ProjectionMatrix := "uProjection"];
      d := d[ViewMatrix := "uViewMatrix"];
      d := d[CameraMatrix := "uCamera"];
      d := d[ModelMatrix := "uModel"];
      d := d[Interpolation := "fInterpolation"];
      d := d[InterpolationPos := "viPosition"];
      d := d[InterpolationNormal := "viNormal"];
      d := d[ColorMap := "sColorMap"];
      ghost var before := dictionary;
      dictionary := d;
      forall a
        ensures Lookup(dictionary, a) == if DefaultName(a) != "" then DefaultName(a) else Lookup(before, a)
        ensures a in dictionary <==> a in before || DefaultName(a) != ""
      {
        if DefaultName(a) == "" {
          assert a == Vertices || a == TextureSampler;
        }
      }
    }
  }
}
