/** The shared image component: a skeleton until the image loads, and a
    fallback source once it fails. */
module Image {
  import opened Options

  const Placeholder := "https://placehold.co/600x400?text=Image+Not+Found"

  class ImageState {
    var src: string
    const fallback: string
    var error: bool
    var loaded: bool

    /** The `src` attribute of the rendered image. */
    function DisplayedSrc(): (r: string)
      reads this
      ensures error ==> r == fallback
      ensures !error ==> r == src
    {
      if error then fallback else src
    }

    /** The pulsing skeleton. */
    function ShowsSkeleton(): (r: bool)
      reads this
      ensures r <==> !loaded && !error
    {
      !loaded && !error
    }

    /** A missing `fallback` prop defaults to the placeholder URL. */
    constructor(source: string, fallbackProp: Option<string>)
      ensures src == source && fallback == fallbackProp.GetOr(Placeholder)
      ensures !error && !loaded && ShowsSkeleton() && DisplayedSrc() == source
    {
      src := source;
      fallback := fallbackProp.GetOr(Placeholder);
      error := false;
      loaded := false;
    }

    /** `handleError`: the flag is set once and never cleared. */
    method HandleError()
      modifies this
      ensures error && loaded == old(loaded) && src == old(src)
      ensures DisplayedSrc() == fallback && !ShowsSkeleton()
    {
      if !error {
        error := true;
      }
    }

    /** A re-render with another `src` prop: the component's state is kept,
        so an image that failed before shows the fallback for the new source
        as well, and the skeleton shows again only if it was showing. */
    method SrcChanged(newSrc: string)
      modifies this
      ensures src == newSrc && error == old(error) && loaded == old(loaded)
      ensures old(error) ==> DisplayedSrc() == fallback
      ensures !old(error) ==> DisplayedSrc() == newSrc
      ensures ShowsSkeleton() == old(ShowsSkeleton())
    {
      src := newSrc;
    }

    method HandleLoad()
      modifies this
      ensures loaded && error == old(error) && src == old(src)
      ensures DisplayedSrc() == old(DisplayedSrc()) && !ShowsSkeleton()
    {
      loaded := true;
    }
  }
}
