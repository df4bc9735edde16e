/** The theme picker of the 3D viewer (src/components/MerlinViewer.tsx): the list
    of themes offered and the choice of model file for the selected theme. The viewer
    keeps the pair (active theme, model path); rendering is not modelled. */
module MerlinViewer {

  datatype Theme = Theme(id: string, name: string)

  /** The themes offered in the viewer's selector, in display order. */
  const Themes: seq<Theme> := [
    Theme("default", "Default Merlin"),
    Theme("dj", "DJ Merlin"),
    Theme("wizard", "Wizard Merlin"),
    Theme("cosmic", "Cosmic Merlin"),
    Theme("brown", "Brown University Merlin")]

  const DefaultModelPath: string := "/models/merlin.glb"

  /** The `switch` in `handleThemeChange`: four ids have a model file of their own,
      every other string falls through to the default model. */
  function ModelPathFor(theme: string): string {
    if theme == "dj" then "/models/merlin-dj.glb"
    else if theme == "wizard" then "/models/merlin-wizard.glb"
    else if theme == "cosmic" then "/models/merlin-cosmic.glb"
    else if theme == "brown" then "/models/merlin-brown.glb"
    else DefaultModelPath
  }

  datatype ViewerState = ViewerState(activeTheme: string, modelPath: string)

  /** The viewer's initial `activeTheme` and `modelPath`. */
  const InitialViewer: ViewerState := ViewerState("default", DefaultModelPath)

  /** The model shown is the one chosen for the active theme. */
  predicate Consistent(v: ViewerState) {
    v.modelPath == ModelPathFor(v.activeTheme)
  }

  /** `handleThemeChange(theme)`: the theme is stored verbatim, recognised or not,
      and the model path is chosen from it. */
  function HandleThemeChange(v: ViewerState, theme: string): (r: ViewerState)
    ensures r.activeTheme == theme && Consistent(r)
  {
    ViewerState(theme, ModelPathFor(theme))
  }

  /** `handleThemeChange` called with each theme of `themes`, in order. */
  function ChangeThemes(v: ViewerState, themes: seq<string>): ViewerState
    decreases |themes|
  {
    if themes == [] then v else ChangeThemes(HandleThemeChange(v, themes[0]), themes[1..])
  }

  /** The four named themes have their own files; everything else, "default" and
      unknown ids included, gets the default model, and only those do. */
  lemma ModelPathTable(theme: string)
    ensures ModelPathFor("dj") == "/models/merlin-dj.glb"
    ensures ModelPathFor("wizard") == "/models/merlin-wizard.glb"
    ensures ModelPathFor("cosmic") == "/models/merlin-cosmic.glb"
    ensures ModelPathFor("brown") == "/models/merlin-brown.glb"
    ensures ModelPathFor("default") == DefaultModelPath
    ensures ModelPathFor(theme) == DefaultModelPath <==> theme !in {"dj", "wizard", "cosmic", "brown"}
  {
  }

  /** The five offered themes are shown with five different models. */
  lemma ThemePathsDistinct()
    ensures forall i, j :: 0 <= i < j < |Themes| ==> ModelPathFor(Themes[i].id) != ModelPathFor(Themes[j].id)
  {
  }

  /** The viewer starts consistent, on the first theme offered. */
  lemma InitialConsistent()
    ensures Consistent(InitialViewer)
    ensures InitialViewer.activeTheme == Themes[0].id
  {
  }

  /** After any non-empty run of theme changes, the active theme is the last value
      passed and the model path is the one chosen for it; a consistent viewer stays
      consistent through every run, the empty one included. */
  lemma {:induction false} LastThemeWins(v: ViewerState, themes: seq<string>)
    ensures themes != [] ==>
      ChangeThemes(v, themes).activeTheme == themes[|themes| - 1] &&
      ChangeThemes(v, themes).modelPath == ModelPathFor(themes[|themes| - 1])
    ensures Consistent(v) ==> Consistent(ChangeThemes(v, themes))
    decreases |themes|
  {
    if themes != [] {
      LastThemeWins(HandleThemeChange(v, themes[0]), themes[1..]);
    }
  }
}
