/** Whether swapping a registered configuration class for another is a compatible change. */
module ClassCompat {
  import opened ConfigTypes

  /** The same class is compatible; a different class is compatible only as the
      current class of the blueprint that generated an outdated old class. */
  function IsCompatibleConfigurationClassChange(oldClass: ConfigClass, newClass: ConfigClass): (r: bool)
    ensures oldClass.id == newClass.id ==> r
    ensures r && oldClass.id != newClass.id ==> oldClass.newerVersionExists && oldClass.generatedBy.Some?
  {
    if oldClass.id == newClass.id then true
    else if oldClass.newerVersionExists && oldClass.generatedBy.Some? then
      oldClass.generatedBy.value.generatedClass == newClass.id
    else false
  }

  /** For a different class both directions: compatible exactly when the old class
      is marked outdated and its blueprint now generates the new class. */
  lemma CompatibleChangeOfClass(oldClass: ConfigClass, newClass: ConfigClass)
    requires oldClass.id != newClass.id
    ensures IsCompatibleConfigurationClassChange(oldClass, newClass)
      <==> oldClass.newerVersionExists && oldClass.generatedBy == Some(Blueprint(newClass.id))
  {
  }

  /** An old class has at most one compatible successor other than itself. */
  lemma CompatibleSuccessorUnique(oldClass: ConfigClass, a: ConfigClass, b: ConfigClass)
    requires a.id != oldClass.id && b.id != oldClass.id
    requires IsCompatibleConfigurationClassChange(oldClass, a)
    requires IsCompatibleConfigurationClassChange(oldClass, b)
    ensures a.id == b.id
  {
  }
}
