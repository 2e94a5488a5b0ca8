# AtomScope carbon atom: geometry model

AtomScope draws an interactive 3D carbon atom. A nucleus of 12–14 nucleons
sits at the centre, with s- and p-orbital solids around it and electrons
circling on visible guide lines. The user picks Carbon-12, -13 or -14.

This project models the geometry in `src/pages/atom.js` that feeds the
renderer, and proves properties of it:

- **`Nucleus`** (`nucleus.dfy`) covers `getNucleons`:
  - the `switch` that picks the neutron count, with a fallback of 6;
  - the loop that pushes `6 + neutrons` nucleons, the first six coloured as protons;
  - the spiral point set `polar = acos(1 − 2(i+0.5)/N)`, `azimuthal = sqrt(N·π)·polar`;
  - `sphericalToCartesian` at radius 1.25.
- **`Orbital`** (`orbital.dfy`) covers the `scale` vector and `labelOffset` that `POrbital` picks from its `orientation` string.
- **`Electron`** (`electron.dfy`) covers:
  - the `useFrame` motion law, as the method `ElectronView.Frame`. It updates a mutable sphere position field by field and then copies it to the label position;
  - the 101-point `points` loop, as the method `PathPoints`.
- **`Atom`** (`atom.dfy`) compares the legend's `isotope - 6` with the neutron count the nucleus is built with.
- **`Maths`** (`maths.dfy`) holds `Vec3` and `MathLib`. `MathLib` stands for JavaScript's `Math.sin`, `Math.cos`, `Math.acos`, `Math.sqrt` and `Math.PI`.
  - These functions are uninterpreted. Every operation that uses them takes a `MathLib` value, and every result about such an operation holds for all choices of these functions.
  - Where a proof needs a trigonometric fact, it is required explicitly: `Pythagorean` (sin²+cos²=1) or `Periodic` (period 2π).

JavaScript numbers are modelled as `real`, so floating-point rounding is not
modelled. Elapsed time, which the source reads from the renderer's clock, is
a parameter of `Frame`.

Two places where the page's intended design and its code part ways; the model follows the code:

- The "xy" and "xy2" orbits are meant as great circles of radius |r|. In the code, y repeats ±z. `TiltedOrbitDistance` proves that x and z still trace the circle x² + z² = r², while the squared distance from the nucleus is r²(1 + sin²θ), ranging from r² to 2r². So the orbit is that circle lifted onto the plane y = ±z, which is an ellipse rather than a circle of radius |r|. Only the flat "xz" orbit is a circle (`FlatOrbitIsCircle`).
- An unrecognised isotope is meant to be handled like Carbon-12. The code does build Carbon-12's nucleus for it (`UnknownIsotopeIsCarbon12`). The legend, however, still shows `isotope - 6` (`LegendMatchesNucleus`).

## Model

| member | source | states |
|---|---|---|
| `Nucleus.NeutronCount` | src/pages/atom.js:20-32 | isotopes 12, 13 and 14 get mass number minus 6 neutrons; every other value falls back to 6 |
| `Nucleus.TotalNucleons` | src/pages/atom.js:34 | the nucleon total is between 12 and 14, and equals the mass number exactly when the isotope is 12, 13 or 14 |
| `Nucleus.SphericalToCartesian` | src/pages/atom.js:9-14 | the definition (x = r sinθ cosφ, y = r sinθ sinφ, z = r cosθ) that `SphericalOnSphere`, `NucleonAt` and `GetNucleons` are stated about |
| `Nucleus.SphericalOnSphere` | src/pages/atom.js:9-14 | under sin²+cos²=1, the point `sphericalToCartesian(radius, polar, azimuthal)` has squared length radius² for every pair of angles |
| `Nucleus.AcosArgument` | src/pages/atom.js:37 | for 0 ≤ i < N, the `Math.acos` argument 1 − 2(i+0.5)/N lies strictly between −1 and 1 |
| `Nucleus.Polar` | src/pages/atom.js:37 | the polar angle is `Math.acos` applied to an argument strictly inside (−1, 1); it is the angle that `NucleonAt` and `GetNucleons` are stated about |
| `Nucleus.Azimuthal` | src/pages/atom.js:38 | the definition sqrt(N·π) · polar that `NucleonAt` and `GetNucleons` are stated about |
| `Nucleus.NucleonAt` | src/pages/atom.js:37-45 | nucleon i has the proton colour iff i < 6 and the neutron colour iff i ≥ 6; under sin²+cos²=1 it lies on the sphere of radius 1.25 |
| `Nucleus.GetNucleons` | src/pages/atom.js:16-48 | returns exactly 6 + neutrons entries; entry i is proton-coloured iff i < 6 and neutron-coloured otherwise; entry i sits at `sphericalToCartesian(1.25, polar_i, azimuthal_i)`; under sin²+cos²=1 every entry has squared length 1.25² |
| `Nucleus.UnknownIsotopeIsCarbon12` | src/pages/atom.js:23-32 | any isotope other than 13 or 14 produces exactly the Carbon-12 nucleon list |
| `Orbital.LobeAxis` | src/pages/atom.js:116-129 | "y" selects the y-axis and "z" the z-axis; every other orientation string selects the x-axis |
| `Orbital.Scale` | src/pages/atom.js:116-121 | the scale component on the selected axis is 1.2, and the other two are 0.4 |
| `Orbital.LabelOffset` | src/pages/atom.js:123-129 | the x default gives `[2,2,2]`; for "y" or "z" the offset is 4 on that axis and 0 on the others |
| `Orbital.LabelBeyondLongAxis` | src/pages/atom.js:116-133 | exactly one scale component is 1.2, the one on the selected axis; no label-offset component exceeds the one on that axis; at mount, the offset along that axis lies beyond the lobe's tip at 0.8 · 1.2 from its centre |
| `Electron.OrbitPoint` | src/pages/atom.js:168-178 | x = r·cos θ and z = r·sin θ; y equals z for "xy", −z for "xy2", and 0 for any other plane |
| `Electron.NegatedRadiusIsAntipodal` | src/pages/atom.js:155-160 | replacing the radius r by −r negates all three coordinates of the orbit point |
| `Electron.FlatOrbitIsCircle` | src/pages/atom.js:155-156 | under sin²+cos²=1, an untilted orbit point has squared distance r² from the nucleus |
| `Electron.TiltedOrbitDistance` | src/pages/atom.js:155-160 | under sin²+cos²=1, a tilted ("xy"/"xy2") orbit point has x² + z² = r² and squared distance r²(1+sin²θ), between r² and 2r² |
| `Electron.MotionIsPeriodic` | src/pages/atom.js:154-160 | under 2π-periodicity and for nonzero speed, the position at time t + 2π/speed equals the position at time t |
| `Electron.PathAngle` | src/pages/atom.js:168 | the angle (i/100)·π·2 of guide-line point i; it is 0 for i = 0 and 2π for i = 100; `Path`, `PathPoints` and `PathIsClosed` are stated in terms of it |
| `Electron.PathPoints` | src/pages/atom.js:165-182 | builds exactly 101 points; point i is the orbit point at angle (i/100)·π·2, so point 0 uses θ = 0 and point 100 uses θ = 2π |
| `Electron.PathIsClosed` | src/pages/atom.js:167-168 | under 2π-periodicity, the last guide-line point equals the first |
| `Electron.PathOfNegatedRadius` | src/pages/atom.js:169-177 | the guide line for −r is the point-by-point negation of the guide line for r |
| `Electron.Vector3.Copy` | src/pages/atom.js:162 | after `copy(v)`, the vector holds v's previous three coordinates |
| `Electron.ElectronView.constructor` | src/pages/atom.js:186 | the sphere starts at `[radius, 0, 0]` and the label group at the origin; the two position vectors are distinct objects |
| `Electron.ElectronView.Frame` | src/pages/atom.js:153-163 | sets x = r·cos(t·speed) and z = r·sin(t·speed); sets y = z for "xy" and y = −z for "xy2"; leaves y unchanged otherwise, where it stays 0; the new sphere position is the orbit point at angle t·speed; the label position becomes equal to the sphere position |
| `Atom.LegendNeutrons` | src/pages/atom.js:297 | the definition `isotope - 6` of the legend figure that `LegendMatchesNucleus` is stated about |
| `Atom.LegendMatchesNucleus` | src/pages/atom.js:297 | the legend's `isotope - 6` equals the generated neutron count exactly when the isotope is 12, 13 or 14 |

## Left out

- Rendering through React, @react-three/fiber, drei and three.js: `Sphere`, `Html`, `Line`, `Canvas`, `Stars`, lights and material properties. This is external rendering code with no logic of the page's own.
- `Controls` (camera placement and `OrbitControls` updates): UI input plumbing.
- The `useState` isotope selection, the `<select>` and its `parseInt`, and the legend and caption markup. This is DOM wiring; only the legend's `isotope - 6` arithmetic is modelled. Hence the claim that changing the isotope leaves orbital and electron configurations untouched is not modelled either.
- `useMemo` dependency tracking and `useFrame` scheduling: framework lifecycle. The body of each callback is modelled as a method.
- The per-frame label copy in `SOrbital` and `POrbital` (lines 86-88 and 112-114). It is the same copy as the electron's. In `POrbital` it moves the label group onto the sphere's position after the first frame, replacing the `labelOffset` given at mount; the model only describes the offset that is chosen.
- Floating-point behaviour of `Math.sin`, `Math.cos`, `Math.acos`, `Math.sqrt` and `Math.PI`. They are uninterpreted, and no numeric-closeness claim is made beyond what `Pythagorean` and `Periodic` imply.
- The clock: the elapsed time is a parameter of `Frame` instead of being read from `state.clock`.
