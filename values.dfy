/** Core/Helpers/ObjectExtensions.cs: the conversion of a deserialised property
    value to the type of the field it is bound to, and the values involved.
    Json.NET decodes a scene's property values into strings, 64-bit integers,
    doubles, booleans, JObject and JArray; property resolution replaces some of
    them by resource objects. */
module Values {
  import opened Common
  import Resources

  /** ResourceType; None (0) is the enum default. */
  datatype ResourceType = NoResource | TextureType | ModelType

  /** ResolveProperty: a directive naming a resource of a given kind. */
  datatype ResolveProperty = ResolveProperty(name: Option<string>, resolveType: ResourceType)

  /** The field types of the bindable entity properties, and ResolveProperty. */
  datatype FieldType =
    | StringField | Vec3Field | FloatField | IntField | BoolField | ColorField
    | TextureField | ModelField | ResolveField

  /** A boxed .NET value. */
  datatype Value =
    | Null
    | Str(s: string)
    | Long(n: int)
    | Double(d: real)
    | Boolean(b: bool)
    | JObject(id: nat)
    | JArray(id: nat)
    | Vec(v: Vec3)
    | Single(f: real)
    | Int32(i: int)
    | Col(c: Color)
    | TextureRef(texture: Resources.TextureResource)
    | ModelRef(model: Resources.ModelResource)
    | Resolve(directive: ResolveProperty)

  /** Type.IsInstanceOfType: null is an instance of no type. */
  predicate IsInstanceOf(v: Value, t: FieldType) {
    match t
    case StringField => v.Str?
    case Vec3Field => v.Vec?
    case FloatField => v.Single?
    case IntField => v.Int32?
    case BoolField => v.Boolean?
    case ColorField => v.Col?
    case TextureField => v.TextureRef?
    case ModelField => v.ModelRef?
    case ResolveField => v.Resolve?
  }

  /** The boxed values that implement IConvertible. */
  predicate IsConvertible(v: Value) {
    v.Str? || v.Long? || v.Double? || v.Boolean? || v.Single? || v.Int32?
  }

  /** The field types Convert.ChangeType can produce from an IConvertible. */
  predicate IsConvertibleType(t: FieldType) {
    t == StringField || t == FloatField || t == IntField || t == BoolField
  }

  /** What Json.NET and the runtime decide: JObject.ToObject and Convert.ChangeType
      between IConvertible types. None means the call throws. */
  datatype Converter = Converter(
    toObject: (nat, FieldType) -> Option<Value>,
    changeType: (Value, FieldType) -> Option<Value>)

  /** ObjectExtensions.Convert(target, type). None means an exception escapes: only
      JObject.ToObject is not guarded. A ChangeType that fails (every non-IConvertible
      value, every non-IConvertible target type, null) yields null. */
  function Convert(target: Value, t: FieldType, conv: Converter): (r: Option<Value>)
    ensures r.None? ==> target.JObject?
  {
    if IsInstanceOf(target, t) then Some(target)
    else if target.JObject? then conv.toObject(target.id, t)
    else if IsConvertible(target) && IsConvertibleType(t) then
      match conv.changeType(target, t)
      case None => Some(Null)
      case Some(v) => Some(v)
    else Some(Null)
  }

  /** Convert<ResolveProperty>: the cast of the untyped result. None means an exception
      escapes (ToObject threw, or produced something that is not a ResolveProperty);
      Some(None) is null. */
  function ConvertToResolve(target: Value, conv: Converter): (r: Option<Option<ResolveProperty>>)
  {
    match Convert(target, ResolveField, conv)
    case None => None
    case Some(Null) => Some(None)
    case Some(Resolve(p)) => Some(Some(p))
    case Some(_) => None
  }

  /** A value that already has the target type is returned as it is; in particular a
      resolved resource is bound to a field of its own kind unchanged. */
  lemma ConvertIdentity(target: Value, t: FieldType, conv: Converter)
    requires IsInstanceOf(target, t)
    ensures Convert(target, t, conv) == Some(target)
  {
  }

  /** Only a JObject can make Convert throw, and only when ToObject throws; every other
      value converts to null or to what ChangeType returns. */
  lemma ConvertThrowsOnlyInToObject(target: Value, t: FieldType, conv: Converter)
    ensures Convert(target, t, conv).None? <==> target.JObject? && !IsInstanceOf(target, t) && conv.toObject(target.id, t).None?
    ensures !target.JObject? && !IsInstanceOf(target, t) ==>
      Convert(target, t, conv) == Some(if IsConvertible(target) && IsConvertibleType(t) && conv.changeType(target, t).Some?
                                      then conv.changeType(target, t).value else Null)
  {
  }

  /** A resource bound to a field of the other resource kind, a vector, a colour or a
      JArray bound to any field it is not an instance of, becomes null. */
  lemma MismatchedObjectIsNull(target: Value, t: FieldType, conv: Converter)
    requires target.TextureRef? || target.ModelRef? || target.Resolve? || target.Vec? || target.Col? || target.JArray?
    requires !IsInstanceOf(target, t)
    ensures Convert(target, t, conv) == Some(Null)
  {
  }

  /** Convert<ResolveProperty> of anything but a JObject or a ResolveProperty is null,
      so only a JSON object can be a resolve directive, and only a JSON object can
      make resolution throw. */
  lemma OnlyObjectsResolve(target: Value, conv: Converter)
    ensures !target.JObject? && !target.Resolve? ==> ConvertToResolve(target, conv) == Some(None)
    ensures target.Resolve? ==> ConvertToResolve(target, conv) == Some(Some(target.directive))
    ensures ConvertToResolve(target, conv).None? ==> target.JObject?
  {
  }
}
