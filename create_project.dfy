/** QubCreateProject: the application's identity and the full names of its
    actions. */
module CreateProject {
  import opened Wrappers
  import opened PreCondition

  const ApplicationName: string := "qub-createproject"

  /** The application name, a space and the action name; the action name
      must be present and non-empty. */
  function GetActionFullName(actionName: Option<string>): (r: Result<string, PreConditionFailure>)
    ensures actionName == None ==> r == Failure(CannotBeNull("actionName"))
    ensures actionName == Some("") ==> r == Failure(CannotBeEmpty("actionName"))
    ensures r.Success? <==> actionName.Some? && actionName.value != ""
    ensures r.Success? ==>
      && |r.value| == |ApplicationName| + 1 + |actionName.value|
      && r.value[..|ApplicationName|] == ApplicationName
      && r.value[|ApplicationName|] == ' '
      && r.value[|ApplicationName| + 1..] == actionName.value
  {
    match actionName
    case None => Failure(CannotBeNull("actionName"))
    case Some(name) =>
      if name == "" then Failure(CannotBeEmpty("actionName"))
      else Success(ApplicationName + " " + name)
  }

  /** Different actions get different full names: the action name can be
      read back from the full name. */
  lemma ActionFullNameInjective(a: string, b: string)
    requires GetActionFullName(Some(a)).Success?
    requires GetActionFullName(Some(a)) == GetActionFullName(Some(b))
    ensures a == b
  {
    var full := GetActionFullName(Some(a)).value;
    assert a == full[|ApplicationName| + 1..];
  }

  lemma ActionFullNameExamples()
    ensures GetActionFullName(Some("a")) == Success("qub-createproject a")
    ensures GetActionFullName(Some("bananas")) == Success("qub-createproject bananas")
    ensures GetActionFullName(None) == Failure(PreConditionFailure("actionName cannot be null."))
    ensures GetActionFullName(Some("")) == Failure(PreConditionFailure("actionName cannot be empty."))
  {
    assert ApplicationName + " " + "a" == "qub-createproject a";
    assert ApplicationName + " " + "bananas" == "qub-createproject bananas";
    assert "actionName" + " cannot be null." == "actionName cannot be null.";
    assert "actionName" + " cannot be empty." == "actionName cannot be empty.";
  }
}
