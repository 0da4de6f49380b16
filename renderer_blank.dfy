/**
 * The blank renderer: it fills every pixel of its output film with one colour.
 * The film is a `width` by `height` array of an opaque colour type, indexed
 * `[x, y]`, whose clear() sets every pixel to the film's clear colour.
 */
module RendererBlank {
  import opened Components

  class Film<C> {
    /** The Component part of the film (its entry in the component tree). */
    const comp: Component
    const width: nat
    const height: nat
    const pixels: array2<C>
    const clearColor: C

    ghost predicate Valid()
      reads this
    {
      pixels.Length0 == width && pixels.Length1 == height
    }

    constructor (comp: Component, width: nat, height: nat, clearColor: C)
      ensures Valid() && fresh(pixels)
      ensures this.comp == comp && this.width == width && this.height == height && this.clearColor == clearColor
    {
      this.comp := comp;
      this.width := width;
      this.height := height;
      this.clearColor := clearColor;
      pixels := new C[width, height]((x, y) => clearColor);
    }

    method Clear()
      requires Valid()
      modifies pixels
      ensures forall x, y :: 0 <= x < width && 0 <= y < height ==> pixels[x, y] == clearColor
    {
      var x := 0;
      while x < width
        invariant 0 <= x <= width
        invariant forall i, j :: 0 <= i < x && 0 <= j < height ==> pixels[i, j] == clearColor
      {
        var y := 0;
        while y < height
          invariant 0 <= y <= height
          invariant forall i, j :: 0 <= i < x && 0 <= j < height ==> pixels[i, j] == clearColor
          invariant forall j :: 0 <= j < y ==> pixels[x, j] == clearColor
        {
          pixels[x, y] := clearColor;
          y := y + 1;
        }
        x := x + 1;
      }
    }

    method SetPixel(x: nat, y: nat, c: C)
      requires Valid() && x < width && y < height
      modifies pixels
      ensures pixels[x, y] == c
      ensures forall i, j :: 0 <= i < width && 0 <= j < height && (i != x || j != y) ==> pixels[i, j] == old(pixels[i, j])
    {
      pixels[x, y] := c;
    }
  }

  /** comp::get<Film>: the film among `films` whose component is `c`, or null when there is none. */
  function FilmOf<C>(films: seq<Film<C>>, c: Component?): (f: Film?<C>)
    ensures f != null ==> f in films && f.comp == c
    ensures f == null ==> c == null || forall i :: 0 <= i < |films| ==> films[i].comp != c
  {
    if c == null || films == [] then null
    else if films[0].comp == c then films[0]
    else FilmOf(films[1..], c)
  }

  /**
   * Among films with distinct components, get<Film> of a film's own component is
   * that film: a visitor that hands back the pointer it was given keeps the
   * renderer's film.
   */
  lemma {:induction false} FilmOfOwnComp<C>(films: seq<Film<C>>, f: Film<C>)
    requires f in films
    requires forall i, j :: 0 <= i < j < |films| ==> films[i].comp != films[j].comp
    ensures FilmOf(films, f.comp) == f
  {
    if films[0] != f {
      assert films[0].comp != f.comp by {
        var k :| 0 <= k < |films| && films[k] == f;
        assert k > 0;
      }
      assert f in films[1..];
      FilmOfOwnComp(films[1..], f);
    }
  }

  class Blank<C> {
    var color: C
    var film: Film?<C>

    constructor (color: C)
      ensures this.color == color && film == null
    {
      this.color := color;
      film := null;
    }

    /**
     * construct(prop): take the colour and the film found at the output locator;
     * false when the locator does not resolve to a film. `films` are the films alive;
     * the locator is resolved in the state before the call.
     */
    method Construct(ctx: ComponentContext, color: C, output: string, films: seq<Film<C>>) returns (ok: bool)
      modifies this
      ensures this.color == color
      ensures film == FilmOf(films, old(Lookup(ctx.root, output)))
      ensures ok <==> film != null
      ensures !ok <==> (old(Lookup(ctx.root, output)) == null ||
        forall i :: 0 <= i < |films| ==> films[i].comp != old(Lookup(ctx.root, output)))
    {
      var c := ctx.Get(output);
      this.color := color;
      film := FilmOf(films, c);
      if film == null {
        return false;
      }
      return true;
    }

    /** The blank renderer never needs a scene. */
    function RequiresScene(): (b: bool)
      ensures !b
    {
      false
    }

    /**
     * foreachUnderlying: the film is visited as a weak reference, and the pointer
     * the visitor leaves behind is cast back to a film (get<Film> among `films`,
     * the films alive) and becomes the renderer's film.
     */
    method ForeachUnderlying(visitor: (Component?, bool) -> Component?, films: seq<Film<C>>) returns (v: Visit)
      modifies this`film
      ensures v == Visit(old(if film == null then null else film.comp), true)
      ensures film == FilmOf(films, visitor(v.target, true))
      ensures film != null ==> film in films && film.comp == visitor(v.target, true)
      ensures film == null <==> (visitor(v.target, true) == null ||
        forall i :: 0 <= i < |films| ==> films[i].comp != visitor(v.target, true))
    {
      var temp := if film == null then null else film.comp;
      v := Visit(temp, true);
      film := FilmOf(films, VisitWeak(visitor, temp));
    }

    /** render: clear the film, then set every pixel, row by row, to the colour. */
    method Render()
      requires film != null && film.Valid()
      modifies film.pixels
      ensures forall x, y :: 0 <= x < film.width && 0 <= y < film.height ==> film.pixels[x, y] == color
    {
      film.Clear();
      var w, h := film.width, film.height;
      var y := 0;
      while y < h
        invariant 0 <= y <= h
        invariant forall i, j :: 0 <= i < w && 0 <= j < y ==> film.pixels[i, j] == color
      {
        var x := 0;
        while x < w
          invariant 0 <= x <= w
          invariant forall i, j :: 0 <= i < w && 0 <= j < y ==> film.pixels[i, j] == color
          invariant forall i :: 0 <= i < x ==> film.pixels[i, y] == color
        {
          film.SetPixel(x, y, color);
          x := x + 1;
        }
        y := y + 1;
      }
    }
  }
}
